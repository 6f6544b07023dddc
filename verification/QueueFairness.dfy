/**
  Who is served when. A call that looks at a tenant's list serves the tenant or
  moves it up the list. A call for a set looks at that set's list; a call
  without a set looks at the first list with work, in the order in which the
  sets appeared, so it is fair to the first set and may starve the later ones.
*/
module QueueFairness {
  import opened Wrappers
  import opened RequestQueue

  // ---------- positions ----------

  /** Where a tenant stands on a list. */
  function Position(list: seq<string>, t: string): nat
  {
    if list == [] || list[0] == t then 0 else 1 + Position(list[1..], t)
  }

  lemma {:induction false} PositionIs(list: seq<string>, t: string, i: nat)
    requires Distinct(list) && i < |list| && list[i] == t
    ensures Position(list, t) == i
  {
    if i == 0 {
    } else {
      assert list[0] != list[i];
      PositionIs(list[1..], t, i - 1);
    }
  }

  ghost predicate Waits(q: Store, key: string, t: string)
  {
    Queue(q, t) != [] && t in Active(q, key)
  }

  predicate Serves(q: Store, op: Op, t: string)
  {
    Step(q, op).batch.Some? && Step(q, op).batch.value.tenant == t
  }

  /** Taking from a list serves the tenant or moves it up that list, and leaves the other lists alone. */
  lemma TakeMovesUp(q: Store, from: string, key: string, t: string)
    requires StoreOk(q) && Waits(q, key, t)
    ensures var g := TakeFrom(q, from);
            (g.batch.Some? && g.batch.value.tenant == t) ||
            (Waits(g.store, key, t) && Position(Active(g.store, key), t) <= Position(Active(q, key), t) &&
             (from == key ==> g.batch.Some? && Position(Active(g.store, key), t) < Position(Active(q, key), t)))
  {
    var list := Active(q, from);
    var n := SkipStaleIsSuffix(q.queues, list);
    TakeMovesOneQueue(q, from, t);
    if from == key {
      var i :| 0 <= i < |list| && list[i] == t;
      PositionIs(list, t, i);
      if i > n {
        var rotated := list[n..][1..] + [list[n..][0]];
        RotationIsDistinct(list, n);
        assert rotated[i - n - 1] == t;
        PositionIs(rotated, t, i - n - 1);
      }
    }
  }

  lemma {:induction false} TakeAnyMovesUp(q: Store, order: seq<string>, key: string, t: string)
    requires StoreOk(q) && Waits(q, key, t)
    ensures var g := TakeAny(q, order);
            (g.batch.Some? && g.batch.value.tenant == t) ||
            (Waits(g.store, key, t) && Position(Active(g.store, key), t) <= Position(Active(q, key), t))
    decreases |order|
  {
    if order == [] {
    } else {
      var g := TakeFrom(q, order[0]);
      TakeMovesUp(q, order[0], key, t);
      TakeKeepsOk(q, order[0]);
      if g.batch.None? {
        TakeAnyMovesUp(g.store, order[1..], key, t);
      }
    }
  }

  lemma {:induction false} AppendKeepsPosition(list: seq<string>, x: string, t: string)
    requires t in list
    ensures Position(list + [x], t) == Position(list, t)
  {
    if list[0] == t {
    } else {
      assert (list + [x])[1..] == list[1..] + [x];
      AppendKeepsPosition(list[1..], x, t);
    }
  }

  /** Nobody on this list has work. */
  ghost predicate IdleSet(q: Store, key: string)
  {
    forall t :: t in Active(q, key) ==> Queue(q, t) == []
  }

  lemma IdleSetGivesNothing(q: Store, key: string)
    ensures TakeFrom(q, key).batch.None? <==> IdleSet(q, key)
  {
    var list := Active(q, key);
    var n := SkipStaleIsSuffix(q.queues, list);
    if n == |list| {
      forall t | t in list ensures Queue(q, t) == [] {
        var i :| 0 <= i < |list| && list[i] == t;
      }
    } else {
      assert list[n] in list;
    }
  }

  /** Passing over an idle set empties its list and changes nothing else. */
  lemma IdleSetIsEmptied(q: Store, key: string)
    requires IdleSet(q, key)
    ensures var z := TakeFrom(q, key).store;
            z.queues == q.queues && z.order == q.order && z.via == q.via &&
            (forall k :: k != key ==> Active(z, k) == Active(q, k)) && Active(z, key) == []
  {
    IdleSetGivesNothing(q, key);
  }

  /** The sets a set-less call looks at before this one are all idle. */
  ghost predicate FirstBusy(q: Store, order: seq<string>, key: string)
    decreases |order|
  {
    order != [] && (order[0] == key || (IdleSet(q, order[0]) && FirstBusy(q, order[1..], key)))
  }

  lemma {:induction false} FirstBusyFrame(q: Store, z: Store, order: seq<string>, key: string)
    requires z.queues == q.queues && forall k :: k in order ==> Active(z, k) == Active(q, k)
    ensures FirstBusy(z, order, key) <==> FirstBusy(q, order, key)
    decreases |order|
  {
    if order == [] {
    } else {
      assert order[0] in order && forall k :: k in order[1..] ==> k in order;
      FirstBusyFrame(q, z, order[1..], key);
    }
  }

  /** A call that looks at the tenant's list: one for its set, or a set-less one that finds every earlier set idle. */
  ghost predicate LooksAt(q: Store, op: Op, key: string)
  {
    op.DoGet? && if op.id.Some? && op.id.value != "" then op.id.value == key else FirstBusy(q, q.order, key)
  }

  /** A set-less call that reaches the tenant's list serves the tenant or moves it strictly up. */
  lemma {:induction false} TakeAnyReaches(q: Store, order: seq<string>, key: string, t: string)
    requires StoreOk(q) && Waits(q, key, t) && Distinct(order) && FirstBusy(q, order, key)
    ensures var g := TakeAny(q, order);
            (g.batch.Some? && g.batch.value.tenant == t) ||
            (Waits(g.store, key, t) && Position(Active(g.store, key), t) < Position(Active(q, key), t))
    decreases |order|
  {
    if order[0] == key {
      TakeMovesUp(q, key, key, t);
    } else {
      var z := TakeFrom(q, order[0]).store;
      IdleSetGivesNothing(q, order[0]);
      IdleSetIsEmptied(q, order[0]);
      TakeKeepsOk(q, order[0]);
      assert Distinct(order[1..]) && order[0] !in order[1..];
      FirstBusyFrame(q, z, order[1..], key);
      TakeAnyReaches(z, order[1..], key, t);
    }
  }

  /** One that stops at an earlier set leaves the tenant's list as it is. */
  lemma {:induction false} TakeAnyStopsBefore(q: Store, order: seq<string>, key: string, t: string)
    requires StoreOk(q) && Waits(q, key, t) && Distinct(order) && key in order && !FirstBusy(q, order, key)
    ensures var g := TakeAny(q, order);
            g.batch.Some? && Active(g.store, key) == Active(q, key)
    decreases |order|
  {
    IdleSetGivesNothing(q, order[0]);
    if !IdleSet(q, order[0]) {
    } else {
      var z := TakeFrom(q, order[0]).store;
      IdleSetIsEmptied(q, order[0]);
      TakeKeepsOk(q, order[0]);
      assert Distinct(order[1..]) && order[0] !in order[1..];
      FirstBusyFrame(q, z, order[1..], key);
      TakeAnyStopsBefore(z, order[1..], key, t);
    }
  }

  /** The first tenant with work on the first list that has one. */
  function HeadWithWork(q: Store, order: seq<string>): Option<string>
    decreases |order|
  {
    if order == [] then None
    else
      var list := SkipStale(q.queues, Active(q, order[0]));
      if list != [] then Some(list[0]) else HeadWithWork(q, order[1..])
  }

  lemma {:induction false} HeadFrame(q: Store, z: Store, order: seq<string>)
    requires z.queues == q.queues && forall k :: k in order ==> Active(z, k) == Active(q, k)
    ensures HeadWithWork(z, order) == HeadWithWork(q, order)
    decreases |order|
  {
    if order == [] {
    } else {
      assert order[0] in order && forall k :: k in order[1..] ==> k in order;
      HeadFrame(q, z, order[1..]);
    }
  }

  lemma {:induction false} HeadIsServed(q: Store, order: seq<string>)
    requires Distinct(order)
    ensures var b := TakeAny(q, order).batch; HeadWithWork(q, order) == if b.Some? then Some(b.value.tenant) else None
    decreases |order|
  {
    if order == [] {
    } else if TakeFrom(q, order[0]).batch.None? {
      IdleSetGivesNothing(q, order[0]);
      IdleSetIsEmptied(q, order[0]);
      assert Distinct(order[1..]) && order[0] !in order[1..];
      HeadFrame(q, TakeFrom(q, order[0]).store, order[1..]);
      HeadIsServed(TakeFrom(q, order[0]).store, order[1..]);
    }
  }

  /** The tenant is also on the list of a set that comes before this one. */
  ghost predicate OnEarlierList(q: Store, order: seq<string>, key: string, t: string)
    decreases |order|
  {
    order != [] && order[0] != key && (t in Active(q, order[0]) || OnEarlierList(q, order[1..], key, t))
  }

  lemma {:induction false} EarlierHeadIsOnEarlierList(q: Store, order: seq<string>, key: string, t: string)
    requires HeadWithWork(q, order) == Some(t) && !FirstBusy(q, order, key)
    ensures OnEarlierList(q, order, key, t)
    decreases |order|
  {
    var list := Active(q, order[0]);
    var n := SkipStaleIsSuffix(q.queues, list);
    IdleSetGivesNothing(q, order[0]);
    if n == |list| {
      EarlierHeadIsOnEarlierList(q, order[1..], key, t);
    } else {
      assert list[n] in list;
    }
  }

  /** The tenant is served, or is strictly further up its list. */
  predicate Progresses(q: Store, op: Op, key: string, t: string)
  {
    Serves(q, op, t) || Position(Active(Step(q, op).store, key), t) < Position(Active(q, key), t)
  }

  /**
    A set-less call serves a waiting tenant or moves it strictly up its list if
    and only if every set before that list is idle, or the tenant heads the
    work of an earlier set. For a tenant on no earlier list: if and only if
    every set before is idle.
  */
  lemma SetlessCallIff(q: Store, id: Option<string>, key: string, t: string)
    requires StoreOk(q) && Waits(q, key, t) && (id.None? || id.value == "")
    ensures Progresses(q, DoGet(id), key, t) <==> FirstBusy(q, q.order, key) || HeadWithWork(q, q.order) == Some(t)
    ensures !OnEarlierList(q, q.order, key, t) ==> (Progresses(q, DoGet(id), key, t) <==> FirstBusy(q, q.order, key))
  {
    HeadIsServed(q, q.order);
    if FirstBusy(q, q.order, key) {
      TakeAnyReaches(q, q.order, key, t);
    } else {
      TakeAnyStopsBefore(q, q.order, key, t);
      if HeadWithWork(q, q.order) == Some(t) {
        EarlierHeadIsOnEarlierList(q, q.order, key, t);
      }
    }
  }

  /** Nothing moves a waiting tenant down its list, and a call that looks at the list serves it or moves it strictly up. */
  lemma StepMovesUp(q: Store, op: Op, key: string, t: string)
    requires StoreOk(q) && Waits(q, key, t) && !Serves(q, op, t)
    ensures Waits(Step(q, op).store, key, t)
    ensures Position(Active(Step(q, op).store, key), t) <= Position(Active(q, key), t)
    ensures LooksAt(q, op, key) ==> Position(Active(Step(q, op).store, key), t) < Position(Active(q, key), t)
  {
    match op
    case DoPut(r, id) => AppendKeepsPosition(Active(q, key), TenantOf(r), t);
    case DoGet(id) =>
      if id.Some? && id.value != "" {
        TakeMovesUp(q, id.value, key, t);
      } else if FirstBusy(q, q.order, key) {
        TakeAnyReaches(q, q.order, key, t);
      } else {
        TakeAnyMovesUp(q, q.order, key, t);
      }
  }

  /** How many of the calls, as they come, look at this list. */
  ghost function Looks(q: Store, ops: seq<Op>, key: string): nat
    decreases |ops|
  {
    if ops == [] then 0
    else (if LooksAt(q, ops[0], key) then 1 else 0) + Looks(Step(q, ops[0]).store, ops[1..], key)
  }

  predicate ServedDuring(q: Store, ops: seq<Op>, t: string)
    decreases |ops|
  {
    ops != [] && (Serves(q, ops[0], t) || ServedDuring(Step(q, ops[0]).store, ops[1..], t))
  }

  /**
    A tenant with work, at position p of a set's list, is served within p + 1
    calls that look at the list, whatever is put or taken elsewhere meanwhile.
  */
  lemma {:induction false} ServedWithinItsTurn(q: Store, ops: seq<Op>, key: string, t: string)
    requires StoreOk(q) && Waits(q, key, t) && Looks(q, ops, key) > Position(Active(q, key), t)
    ensures ServedDuring(q, ops, t)
    decreases |ops|
  {
    if Serves(q, ops[0], t) {
    } else {
      StepMovesUp(q, ops[0], key, t);
      StepKeepsOk(q, ops[0]);
      ServedWithinItsTurn(Step(q, ops[0]).store, ops[1..], key, t);
    }
  }

  // ---------- set-less callers ----------

  predicate Setless(op: Op)
  {
    op.DoGet? && (op.id.None? || op.id.value == "")
  }

  function SetlessCalls(ops: seq<Op>): nat
  {
    if ops == [] then 0 else (if Setless(ops[0]) then 1 else 0) + SetlessCalls(ops[1..])
  }

  lemma OrderGrows(q: Store, op: Op)
    requires StoreOk(q)
    ensures q.order <= Step(q, op).store.order
  {
    match op
    case DoPut(_, _) =>
    case DoGet(id) =>
      if id.Some? && id.value != "" {
        TakeKeepsOk(q, id.value);
      } else {
        TakeAnyKeepsOk(q, q.order);
      }
  }

  lemma {:induction false} FirstSetIsAlwaysReached(q: Store, ops: seq<Op>)
    requires StoreOk(q) && q.order != []
    ensures Looks(q, ops, q.order[0]) >= SetlessCalls(ops)
    decreases |ops|
  {
    if ops == [] {
    } else {
      StepKeepsOk(q, ops[0]);
      OrderGrows(q, ops[0]);
      FirstSetIsAlwaysReached(Step(q, ops[0]).store, ops[1..]);
    }
  }

  /** Callers without a set are fair to the set that appeared first, and so whenever there is only one set. */
  lemma FirstSetIsServedInTurn(q: Store, ops: seq<Op>, t: string)
    requires StoreOk(q) && q.order != [] && Waits(q, q.order[0], t)
    requires SetlessCalls(ops) > Position(Active(q, q.order[0]), t)
    ensures ServedDuring(q, ops, t)
  {
    FirstSetIsAlwaysReached(q, ops);
    ServedWithinItsTurn(q, ops, q.order[0], t);
  }

  /** One more request of "a" for set "A", and one call without a set. */
  const ROUND: seq<Op> := [DoPut(Request(Some("a"), 0), Some("A")), DoGet(None)]

  const BOTH_PUT: seq<Op> := [DoPut(Request(Some("a"), 0), Some("A")), DoPut(Request(Some("b"), 0), Some("B"))]

  function Rounds(n: nat): seq<Op>
  {
    if n == 0 then [] else ROUND + Rounds(n - 1)
  }

  /** "A" appeared before "B"; each set has one tenant, and that of "B" has work. */
  ghost predicate TwoSets(q: Store)
  {
    && q.order == ["A", "B"] && "A" in q.active && "B" in q.active
    && q.active["A"] == ["a"] && q.active["B"] == ["b"] && Queue(q, "b") != []
  }

  lemma BothPutMakesTwoSets()
    ensures TwoSets(Run(EMPTY, BOTH_PUT))
  {
    var q1 := Put(EMPTY, BOTH_PUT[0].request, BOTH_PUT[0].id);
    assert [] + ["a"] == ["a"] && [] + ["A"] == ["A"];
    assert Run(EMPTY, BOTH_PUT) == Run(q1, BOTH_PUT[1..]);
    var q2 := Put(q1, BOTH_PUT[1].request, BOTH_PUT[1].id);
    assert [] + ["b"] == ["b"];
    assert Run(q1, BOTH_PUT[1..]) == Run(q2, BOTH_PUT[1..][1..]);
    assert BOTH_PUT[1..][1..] == [];
  }

  /** The call finds "a" at the head of "A", every time. */
  lemma OneRound(q: Store)
    requires TwoSets(q)
    ensures var z := Step(q, ROUND[0]).store;
            !Serves(q, ROUND[0], "b") && !Serves(z, ROUND[1], "b") && TwoSets(Step(z, ROUND[1]).store)
  {
    var z := Put(q, Request(Some("a"), 0), Some("A"));
    assert z.order == ["A", "B"] && z.active["A"] == ["a"] && Queue(z, "a") != [];
    assert SkipStale(z.queues, ["a"]) == ["a"];
    assert ["a"][1..] + ["a"] == ["a"];
    assert TakeFrom(z, "A").batch.Some?;
    assert TakeAny(z, z.order) == TakeFrom(z, "A");
  }

  /**
    Callers without a set can starve a later one: two sets are in use, and in
    any number of rounds the tenant at the head of the second is not served.
  */
  lemma {:induction false} LaterSetStarves(q: Store, n: nat)
    requires TwoSets(q)
    ensures !ServedDuring(q, Rounds(n), "b") && Position(Active(q, "B"), "b") == 0
    ensures SetlessCalls(Rounds(n)) == n
    decreases n
  {
    if n == 0 {
    } else {
      var z := Step(q, ROUND[0]).store;
      OneRound(q);
      LaterSetStarves(Step(z, ROUND[1]).store, n - 1);
      assert Rounds(n)[0] == ROUND[0] && Rounds(n)[1..][0] == ROUND[1];
      assert Rounds(n)[1..][1..] == Rounds(n - 1);
    }
  }

  /** The same from the start. */
  lemma SetlessCallersCanStarve(n: nat)
    ensures Waits(Run(EMPTY, BOTH_PUT), "B", "b") && !ServedDuring(Run(EMPTY, BOTH_PUT), Rounds(n), "b")
    ensures SetlessCalls(Rounds(n)) == n
  {
    BothPutMakesTwoSets();
    LaterSetStarves(Run(EMPTY, BOTH_PUT), n);
    assert "b" in ["b"];
  }

  // ---------- what a call takes ----------

  lemma {:induction false} TakeTakesEverything(q: Store, key: string) returns (i: nat)
    ensures var g := TakeFrom(q, key);
            && (g.batch.None? ==> g.store.queues == q.queues && forall t :: t in Active(q, key) ==> Queue(q, t) == [])
            && (g.batch.Some? ==>
                  && i < |Active(q, key)| && Active(q, key)[i] == g.batch.value.tenant
                  && g.batch.value.requests == Queue(q, g.batch.value.tenant) != []
                  && g.store.queues == q.queues[g.batch.value.tenant := []]
                  && forall j :: 0 <= j < i ==> Queue(q, Active(q, key)[j]) == [])
  {
    i := SkipStaleIsSuffix(q.queues, Active(q, key));
    IdleSetGivesNothing(q, key);
  }

  /**
    A call for a set takes everything pending of the first tenant on its list
    that has anything, and nothing else; if nobody on the list has, it takes
    nothing.
  */
  lemma SetCallTakes(q: Store, key: string) returns (i: nat)
    requires key != ""
    ensures var g := Get(q, Some(key));
            && (g.batch.None? ==> g.store.queues == q.queues && forall t :: t in Active(q, key) ==> Queue(q, t) == [])
            && (g.batch.Some? ==>
                  && i < |Active(q, key)| && Active(q, key)[i] == g.batch.value.tenant
                  && g.batch.value.requests == Queue(q, g.batch.value.tenant) != []
                  && g.store.queues == q.queues[g.batch.value.tenant := []]
                  && forall j :: 0 <= j < i ==> Queue(q, Active(q, key)[j]) == [])
  {
    i := TakeTakesEverything(q, key);
  }

  /** A call without a set does the same for the first list, in order of appearance, with anyone on it who has work. */
  lemma {:induction false} AnyTakes(q: Store, order: seq<string>) returns (k: nat, i: nat)
    requires Distinct(order)
    ensures var g := TakeAny(q, order);
            && (g.batch.None? ==> g.store.queues == q.queues && forall j :: 0 <= j < |order| ==> IdleSet(q, order[j]))
            && (g.batch.Some? ==>
                  && k < |order| && i < |Active(q, order[k])| && Active(q, order[k])[i] == g.batch.value.tenant
                  && g.batch.value.requests == Queue(q, g.batch.value.tenant) != []
                  && g.store.queues == q.queues[g.batch.value.tenant := []]
                  && (forall j :: 0 <= j < i ==> Queue(q, Active(q, order[k])[j]) == [])
                  && forall j :: 0 <= j < k ==> IdleSet(q, order[j]))
    decreases |order|
  {
    if order == [] {
      k, i := 0, 0;
    } else {
      i := TakeTakesEverything(q, order[0]);
      if TakeFrom(q, order[0]).batch.Some? {
        k := 0;
      } else {
        IdleSetGivesNothing(q, order[0]);
        IdleSetIsEmptied(q, order[0]);
        var z := TakeFrom(q, order[0]).store;
        var n;
        n, i := AnyTakes(z, order[1..]);
        k := n + 1;
        forall j | 1 <= j < |order| ensures order[j] == order[1..][j - 1] && (IdleSet(z, order[j]) <==> IdleSet(q, order[j])) {
          assert order[j] != order[0];
        }
      }
    }
  }

  lemma SetlessCallTakes(q: Store, id: Option<string>) returns (k: nat, i: nat)
    requires Distinct(q.order) && (id.None? || id.value == "")
    ensures var g := Get(q, id);
            && (g.batch.None? ==> g.store.queues == q.queues && forall j :: 0 <= j < |q.order| ==> IdleSet(q, q.order[j]))
            && (g.batch.Some? ==>
                  && k < |q.order| && i < |Active(q, q.order[k])| && Active(q, q.order[k])[i] == g.batch.value.tenant
                  && g.batch.value.requests == Queue(q, g.batch.value.tenant) != []
                  && g.store.queues == q.queues[g.batch.value.tenant := []]
                  && (forall j :: 0 <= j < i ==> Queue(q, Active(q, q.order[k])[j]) == [])
                  && forall j :: 0 <= j < k ==> IdleSet(q, q.order[j]))
  {
    k, i := AnyTakes(q, q.order);
  }
}
