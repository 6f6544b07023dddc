/**
  Token-budget batching. Examples are sorted by length and packed greedily; a
  batch costs its longest length times its size, because shorter rows are padded.
  The packing is optimal: no other way of splitting the examples into batches
  within the budget, contiguous in length or not, needs fewer batches.
*/
module TrainingBatches {
  import opened Wrappers

  /** A batch is a list of example indices. */
  type Batch = seq<nat>

  function Len(lens: seq<nat>, i: nat): nat
  {
    if i < |lens| then lens[i] else 0
  }

  function MaxLen(batch: Batch, lens: seq<nat>): (m: nat)
    ensures forall i :: i in batch ==> Len(lens, i) <= m
    ensures batch != [] ==> exists i :: i in batch && Len(lens, i) == m
  {
    if batch == [] then 0
    else
      var rest := MaxLen(batch[1..], lens);
      assert batch[0] in batch;
      if Len(lens, batch[0]) >= rest then Len(lens, batch[0]) else rest
  }

  /** Alone, or within the budget once padded to the longest. */
  predicate Fits(batch: Batch, lens: seq<nat>, budget: int)
  {
    batch != [] && (|batch| == 1 || MaxLen(batch, lens) * |batch| <= budget)
  }

  function Items(batches: seq<Batch>): multiset<nat>
  {
    if batches == [] then multiset{} else multiset(batches[0]) + Items(batches[1..])
  }

  function Upto(n: nat): seq<nat>
  {
    seq(n, i => i)
  }

  /** Each of the n examples is in exactly one batch, once. */
  ghost predicate Covers(batches: seq<Batch>, n: nat)
  {
    Items(batches) == multiset(Upto(n))
  }

  ghost predicate Partition(batches: seq<Batch>, lens: seq<nat>, budget: int)
  {
    Covers(batches, |lens|) && forall b :: b in batches ==> Fits(b, lens, budget)
  }

  // ---------- multisets of items ----------

  lemma {:induction false} ItemsAppend(a: seq<Batch>, b: seq<Batch>)
    ensures Items(a + b) == Items(a) + Items(b)
  {
    if a == [] {
      assert a + b == b;
    } else {
      assert (a + b)[1..] == a[1..] + b;
      ItemsAppend(a[1..], b);
    }
  }

  /** Splitting a list of batches around one of them. */
  lemma ItemsAround(batches: seq<Batch>, i: nat)
    requires i < |batches|
    ensures Items(batches) == Items(batches[..i]) + multiset(batches[i]) + Items(batches[i + 1..])
    ensures Items(batches[..i + 1]) == Items(batches[..i]) + multiset(batches[i])
  {
    assert batches == batches[..i] + batches[i..];
    ItemsAppend(batches[..i], batches[i..]);
    assert batches[i..][1..] == batches[i + 1..];
    assert batches[..i + 1] == batches[..i] + [batches[i]];
    ItemsAppend(batches[..i], [batches[i]]);
    assert Items([batches[i]]) == multiset(batches[i]);
  }

  lemma {:induction false} InSomeBatch(batches: seq<Batch>, x: nat) returns (i: nat, row: nat)
    requires x in Items(batches)
    ensures i < |batches| && row < |batches[i]| && batches[i][row] == x
  {
    if x in batches[0] {
      i := 0;
      row :| row < |batches[0]| && batches[0][row] == x;
    } else {
      i, row := InSomeBatch(batches[1..], x);
      i := i + 1;
    }
  }

  // ---------- sorting by length ----------

  predicate SortedByLen(order: seq<nat>, lens: seq<nat>)
  {
    forall i, j :: 0 <= i < j < |order| ==> Len(lens, order[i]) <= Len(lens, order[j])
  }

  /** A stable sort puts a later element after everything no longer than it. */
  function InsertByLen(order: seq<nat>, x: nat, lens: seq<nat>): seq<nat>
  {
    if order == [] then [x]
    else if Len(lens, x) < Len(lens, order[0]) then [x] + order
    else [order[0]] + InsertByLen(order[1..], x, lens)
  }

  /** The first n examples, shortest first. */
  function OrderByLen(lens: seq<nat>, n: nat): seq<nat>
  {
    if n == 0 then [] else InsertByLen(OrderByLen(lens, n - 1), n - 1, lens)
  }

  lemma SortedCons(x: nat, rest: seq<nat>, lens: seq<nat>)
    requires SortedByLen(rest, lens) && forall y :: y in rest ==> Len(lens, x) <= Len(lens, y)
    ensures SortedByLen([x] + rest, lens)
  {
    assert forall k :: 0 <= k < |rest| ==> rest[k] in rest;
  }

  lemma {:induction false} InsertByLenKeepsItems(order: seq<nat>, x: nat, lens: seq<nat>)
    ensures var r := InsertByLen(order, x, lens);
            multiset(r) == multiset(order) + multiset{x} && |r| == |order| + 1
  {
    if order == [] {
    } else {
      assert order == [order[0]] + order[1..];
      InsertByLenKeepsItems(order[1..], x, lens);
    }
  }

  lemma {:induction false} InsertByLenSorts(order: seq<nat>, x: nat, lens: seq<nat>)
    requires SortedByLen(order, lens)
    ensures SortedByLen(InsertByLen(order, x, lens), lens)
  {
    if order == [] {
    } else {
      var head, tail := order[0], order[1..];
      if Len(lens, x) < Len(lens, head) {
        assert forall y :: y in order ==> Len(lens, head) <= Len(lens, y);
        SortedCons(x, order, lens);
      } else {
        InsertByLenSorts(tail, x, lens);
        InsertByLenKeepsItems(tail, x, lens);
        var rest := InsertByLen(tail, x, lens);
        forall y | y in rest ensures Len(lens, head) <= Len(lens, y) {
          assert y in multiset(rest);
        }
        SortedCons(head, rest, lens);
      }
    }
  }

  lemma UptoNext(n: nat)
    ensures multiset(Upto(n + 1)) == multiset(Upto(n)) + multiset{n}
  {
    assert Upto(n + 1) == Upto(n) + [n];
  }

  lemma {:induction false} OrderByLenSorts(lens: seq<nat>, n: nat)
    ensures var r := OrderByLen(lens, n);
            SortedByLen(r, lens) && multiset(r) == multiset(Upto(n)) && |r| == n
  {
    if n == 0 {
    } else {
      OrderByLenSorts(lens, n - 1);
      UptoNext(n - 1);
      InsertByLenSorts(OrderByLen(lens, n - 1), n - 1, lens);
      InsertByLenKeepsItems(OrderByLen(lens, n - 1), n - 1, lens);
    }
  }

  // ---------- any partition, sorted by its longest examples ----------

  predicate SortedByMax(batches: seq<Batch>, lens: seq<nat>)
  {
    forall i, j :: 0 <= i < j < |batches| ==> MaxLen(batches[i], lens) <= MaxLen(batches[j], lens)
  }

  lemma SortedByMaxCons(b: Batch, rest: seq<Batch>, lens: seq<nat>)
    requires SortedByMax(rest, lens) && forall x :: x in rest ==> MaxLen(b, lens) <= MaxLen(x, lens)
    ensures SortedByMax([b] + rest, lens)
  {
    assert forall k :: 0 <= k < |rest| ==> rest[k] in rest;
  }

  function InsertByMax(batches: seq<Batch>, b: Batch, lens: seq<nat>): seq<Batch>
  {
    if batches == [] then [b]
    else if MaxLen(b, lens) < MaxLen(batches[0], lens) then [b] + batches
    else [batches[0]] + InsertByMax(batches[1..], b, lens)
  }

  lemma {:induction false} InsertByMaxKeepsItems(batches: seq<Batch>, b: Batch, lens: seq<nat>)
    ensures var r := InsertByMax(batches, b, lens);
            && |r| == |batches| + 1 && Items(r) == Items(batches) + multiset(b)
            && forall x :: x in r <==> x in batches || x == b
  {
    if batches == [] {
      assert Items([b]) == multiset(b);
    } else {
      assert batches == [batches[0]] + batches[1..];
      InsertByMaxKeepsItems(batches[1..], b, lens);
      assert ([b] + batches)[1..] == batches;
    }
  }

  lemma {:induction false} InsertByMaxSorts(batches: seq<Batch>, b: Batch, lens: seq<nat>)
    requires SortedByMax(batches, lens)
    ensures SortedByMax(InsertByMax(batches, b, lens), lens)
  {
    if batches == [] {
    } else {
      var head, tail := batches[0], batches[1..];
      assert forall x :: x in batches ==> MaxLen(head, lens) <= MaxLen(x, lens);
      if MaxLen(b, lens) < MaxLen(head, lens) {
        SortedByMaxCons(b, batches, lens);
      } else {
        InsertByMaxSorts(tail, b, lens);
        InsertByMaxKeepsItems(tail, b, lens);
        assert forall x :: x in tail ==> x in batches;
        SortedByMaxCons(head, InsertByMax(tail, b, lens), lens);
      }
    }
  }

  lemma {:induction false} SortByMax(batches: seq<Batch>, lens: seq<nat>) returns (r: seq<Batch>)
    ensures SortedByMax(r, lens) && |r| == |batches| && Items(r) == Items(batches)
    ensures forall x :: x in r ==> x in batches
  {
    if batches == [] {
      r := [];
    } else {
      var rest := SortByMax(batches[1..], lens);
      InsertByMaxSorts(rest, batches[0], lens);
      InsertByMaxKeepsItems(rest, batches[0], lens);
      r := InsertByMax(rest, batches[0], lens);
    }
  }

  // ---------- the optimality argument ----------

  lemma WithinTheRest(items: multiset<nat>, a: seq<nat>, b: seq<nat>)
    requires items <= multiset(a + b) && forall x :: x in items ==> x !in b
    ensures items <= multiset(a)
  {
    forall x ensures items[x] <= multiset(a)[x] {
      assert multiset(a + b)[x] == multiset(a)[x] + multiset(b)[x];
    }
  }

  /** Items shorter than the k-th of the sorted order are among the first k. */
  lemma ShortItemsComeFirst(order: seq<nat>, lens: seq<nat>, items: multiset<nat>, k: nat, m: nat)
    requires SortedByLen(order, lens) && items <= multiset(order)
    requires forall x :: x in items ==> Len(lens, x) <= m
    requires k < |order| && Len(lens, order[k]) > m
    ensures |items| <= k
  {
    var tail := order[k..];
    assert order == order[..k] + tail;
    forall j | 0 <= j < |tail| ensures Len(lens, tail[j]) > m {
      assert tail[j] == order[k + j];
    }
    WithinTheRest(items, order[..k], tail);
    SmallerMultiset(items, multiset(order[..k]));
  }

  lemma {:induction false} SmallerMultiset(a: multiset<nat>, b: multiset<nat>)
    requires a <= b
    ensures |a| <= |b|
  {
    assert b == a + (b - a);
  }

  /** How many items the first i batches hold. */
  function Held(batches: seq<Batch>, i: nat): nat
    requires i <= |batches|
  {
    |Items(batches[..i])|
  }

  lemma HeldNext(batches: seq<Batch>, i: nat)
    requires i < |batches|
    ensures Held(batches, i + 1) == Held(batches, i) + |batches[i]|
  {
    ItemsAround(batches, i);
  }

  /** Greedy batches in sorted order: each one was closed because the next item did not fit. */
  ghost predicate Greedy(batches: seq<Batch>, order: seq<nat>, lens: seq<nat>, budget: int)
  {
    && (forall b :: b in batches ==> b != [])
    && Items(batches) == multiset(order)
    && forall i :: 0 <= i < |batches| - 1 ==> Closed(batches, order, lens, budget, i)
  }

  ghost predicate Closed(batches: seq<Batch>, order: seq<nat>, lens: seq<nat>, budget: int, i: nat)
    requires i < |batches|
  {
    var next := Held(batches, i + 1);
    next < |order| && Len(lens, order[next]) * (|batches[i]| + 1) > budget
  }

  /** A batch with items as long as the one that closed another is no larger than it. */
  lemma SmallerThanClosed(len: nat, max: nat, closed: nat, size: nat, budget: int)
    requires closed > 0 && len * (closed + 1) > budget && len <= max && (size == 1 || max * size <= budget)
    ensures size <= closed
  {
    if size > closed {
      ProductsOrdered(len, max, closed + 1, size);
    }
  }

  lemma PrefixIsShort(q: seq<Batch>, lens: seq<nat>, i: nat)
    requires SortedByMax(q, lens) && i < |q|
    ensures forall x :: x in Items(q[..i + 1]) ==> Len(lens, x) <= MaxLen(q[i], lens)
  {
    forall x | x in Items(q[..i + 1]) ensures Len(lens, x) <= MaxLen(q[i], lens) {
      var j, row := InSomeBatch(q[..i + 1], x);
      assert q[..i + 1][j] == q[j] && x in q[j];
      assert MaxLen(q[j], lens) <= MaxLen(q[i], lens);
    }
  }

  /** A batch of the sorted partition that reaches past the k-th item of the order has a length to match. */
  lemma ReachesPast(q: seq<Batch>, order: seq<nat>, lens: seq<nat>, i: nat, k: nat)
    requires SortedByLen(order, lens) && Items(q) == multiset(order) && SortedByMax(q, lens)
    requires i < |q| && k < |order| && k < Held(q, i + 1)
    ensures Len(lens, order[k]) <= MaxLen(q[i], lens)
  {
    ItemsAround(q, i);
    PrefixIsShort(q, lens, i);
    if Len(lens, order[k]) > MaxLen(q[i], lens) {
      ShortItemsComeFirst(order, lens, Items(q[..i + 1]), k, MaxLen(q[i], lens));
    }
  }

  lemma NoLargerThanClosed(closed: Batch, b: Batch, lens: seq<nat>, next: nat, budget: int)
    requires closed != [] && Fits(b, lens, budget)
    requires Len(lens, next) <= MaxLen(b, lens) && Len(lens, next) * (|closed| + 1) > budget
    ensures |b| <= |closed|
  {
    SmallerThanClosed(Len(lens, next), MaxLen(b, lens), |closed|, |b|, budget);
  }

  lemma StaysBehind(g: seq<Batch>, q: seq<Batch>, i: nat)
    requires i < |g| && i < |q| && Held(q, i) <= Held(g, i) && |q[i]| <= |g[i]|
    ensures Held(q, i + 1) <= Held(g, i + 1)
  {
    HeldNext(g, i);
    HeldNext(q, i);
  }

  /** Where the greedy packing closed a batch, no packing that was not ahead before can pass it. */
  lemma CannotPass(g: seq<Batch>, q: seq<Batch>, lens: seq<nat>, next: nat, budget: int, i: nat)
    requires i < |g| && i < |q| && g[i] != [] && Fits(q[i], lens, budget)
    requires Len(lens, next) * (|g[i]| + 1) > budget && Len(lens, next) <= MaxLen(q[i], lens)
    requires Held(q, i) <= Held(g, i)
    ensures Held(q, i + 1) <= Held(g, i + 1)
  {
    NoLargerThanClosed(g[i], q[i], lens, next, budget);
    StaysBehind(g, q, i);
  }

  /** After i batches, the greedy packing has placed at least as many items as any other. */
  lemma {:induction false} GreedyStaysAhead(g: seq<Batch>, q: seq<Batch>, order: seq<nat>, lens: seq<nat>, budget: int, i: nat)
    requires SortedByLen(order, lens) && Greedy(g, order, lens, budget)
    requires SortedByMax(q, lens) && Items(q) == multiset(order)
    requires forall b :: b in q ==> Fits(b, lens, budget)
    requires i < |g| && i <= |q|
    ensures Held(q, i) <= Held(g, i)
  {
    if i == 0 {
    } else {
      GreedyStaysAhead(g, q, order, lens, budget, i - 1);
      assert g[i - 1] in g && q[i - 1] in q && Closed(g, order, lens, budget, i - 1);
      if Held(g, i) < Held(q, i) {
        ReachesPast(q, order, lens, i - 1, Held(g, i));
        CannotPass(g, q, lens, order[Held(g, i)], budget, i - 1);
      }
    }
  }

  lemma NotAllHeldYet(g: seq<Batch>, i: nat)
    requires i < |g| && g[i] != []
    ensures Held(g, i) < |Items(g)|
  {
    ItemsAround(g, i);
  }

  lemma ProductsOrdered(a: nat, b: nat, c: nat, d: nat)
    requires a <= b && c <= d
    ensures a * c <= b * d
  {
    assert b * d == a * c + a * (d - c) + (b - a) * d;
  }

  /** No partition into fitting batches has fewer of them. */
  lemma GreedyIsOptimal(g: seq<Batch>, other: seq<Batch>, order: seq<nat>, lens: seq<nat>, budget: int)
    requires SortedByLen(order, lens) && Greedy(g, order, lens, budget) && multiset(order) == multiset(Upto(|lens|))
    requires Partition(other, lens, budget)
    ensures |g| <= |other|
  {
    if |other| < |g| {
      var q := SortByMax(other, lens);
      assert q[..|q|] == q && g[|q|] in g;
      NotAllHeldYet(g, |q|);
      GreedyStaysAhead(g, q, order, lens, budget, |q|);
    }
  }

  // ---------- the methods ----------

  lemma {:induction false} MaxLenAppend(batch: Batch, x: nat, lens: seq<nat>)
    ensures MaxLen(batch + [x], lens) == if Len(lens, x) >= MaxLen(batch, lens) then Len(lens, x) else MaxLen(batch, lens)
  {
    if batch != [] {
      assert (batch + [x])[1..] == batch[1..] + [x];
      MaxLenAppend(batch[1..], x, lens);
    } else {
      assert batch + [x] == [x];
    }
  }

  /** Everything up to here in sorted order is no longer than what comes next. */
  lemma NextIsLongest(order: seq<nat>, lens: seq<nat>, i: nat, batches: seq<Batch>, batch: Batch)
    requires SortedByLen(order, lens) && i < |order| && Items(batches) + multiset(batch) == multiset(order[..i])
    ensures MaxLen(batch, lens) <= Len(lens, order[i])
  {
    if batch != [] {
      var m := MaxLen(batch, lens);
      var x :| x in batch && Len(lens, x) == m;
      assert x in multiset(batch) && x in multiset(order[..i]);
    }
  }

  /** The batches closed so far, and where the open one starts. */
  ghost predicate Packing(batches: seq<Batch>, batch: Batch, order: seq<nat>, lens: seq<nat>, budget: int, i: nat)
  {
    && i <= |order| && Items(batches) + multiset(batch) == multiset(order[..i])
    && (batch == [] ==> i == 0) && (batch != [] ==> Fits(batch, lens, budget))
    && (forall b :: b in batches ==> Fits(b, lens, budget))
    && forall j :: 0 <= j < |batches| ==> Closed(batches, order, lens, budget, j)
  }

  lemma CloseBatch(batches: seq<Batch>, batch: Batch, order: seq<nat>, lens: seq<nat>, budget: int, i: nat)
    requires Packing(batches, batch, order, lens, budget, i) && batch != [] && i < |order|
    requires Len(lens, order[i]) * (|batch| + 1) > budget
    ensures var closed := batches + [batch];
            Items(closed) == multiset(order[..i]) &&
            forall j :: 0 <= j < |closed| ==> Closed(closed, order, lens, budget, j)
  {
    var closed := batches + [batch];
    ItemsAppend(batches, [batch]);
    assert Items([batch]) == multiset(batch);
    forall j | 0 <= j < |closed| ensures Closed(closed, order, lens, budget, j) {
      if j < |batches| {
        assert closed[..j + 1] == batches[..j + 1];
        assert Closed(batches, order, lens, budget, j);
      } else {
        assert closed[..j + 1] == closed;
      }
    }
  }

  lemma ExtendOpen(batches: seq<Batch>, batch: Batch, order: seq<nat>, lens: seq<nat>, budget: int, i: nat)
    requires i < |order|
    requires Items(batches) + multiset(batch) == multiset(order[..i])
    ensures Items(batches) + multiset(batch + [order[i]]) == multiset(order[..i + 1])
  {
    assert order[..i + 1] == order[..i] + [order[i]];
  }

  lemma PackingEnds(batches: seq<Batch>, batch: Batch, order: seq<nat>, lens: seq<nat>, budget: int)
    requires Packing(batches, batch, order, lens, budget, |order|) && batch != []
    ensures Greedy(batches + [batch], order, lens, budget)
  {
    var all := batches + [batch];
    assert order[..|order|] == order;
    ItemsAppend(batches, [batch]);
    assert Items([batch]) == multiset(batch);
    forall j | 0 <= j < |all| - 1 ensures Closed(all, order, lens, budget, j) {
      assert all[..j + 1] == batches[..j + 1];
      assert Closed(batches, order, lens, budget, j);
    }
  }

  function Singletons(n: nat): seq<Batch>
  {
    seq(n, i => [i])
  }

  lemma {:induction false} SingletonsCover(n: nat)
    ensures Covers(Singletons(n), n)
  {
    if n == 0 {
    } else {
      SingletonsCover(n - 1);
      assert Singletons(n) == Singletons(n - 1) + [[n - 1]];
      ItemsAppend(Singletons(n - 1), [[n - 1]]);
      assert Items([[n - 1]]) == multiset{n - 1};
      UptoNext(n - 1);
    }
  }

  lemma SingletonIsOptimal(other: seq<Batch>, lens: seq<nat>, budget: int)
    requires Partition(other, lens, budget) && |lens| == 1
    ensures |other| >= 1
  {
    assert 0 in multiset(Upto(1)) by { assert Upto(1)[0] == 0; }
  }

  lemma FitsWithOneMore(batch: Batch, x: nat, lens: seq<nat>, budget: int)
    requires batch == [] || Len(lens, x) * (|batch| + 1) <= budget
    requires MaxLen(batch + [x], lens) == Len(lens, x)
    ensures Fits(batch + [x], lens, budget)
  {
  }

  /** The open batch takes the next example. */
  lemma TakeNext(batches: seq<Batch>, batch: Batch, order: seq<nat>, lens: seq<nat>, budget: int, i: nat)
    requires Packing(batches, batch, order, lens, budget, i) && i < |order|
    requires batch == [] || Len(lens, order[i]) * (|batch| + 1) <= budget
    requires MaxLen(batch + [order[i]], lens) == Len(lens, order[i])
    ensures Packing(batches, batch + [order[i]], order, lens, budget, i + 1)
  {
    FitsWithOneMore(batch, order[i], lens, budget);
    ExtendOpen(batches, batch, order, lens, budget, i);
  }

  /** The open batch is closed, and the next example opens another. */
  lemma OpenNext(batches: seq<Batch>, batch: Batch, order: seq<nat>, lens: seq<nat>, budget: int, i: nat)
    requires Packing(batches, batch, order, lens, budget, i) && i < |order|
    requires batch != [] && Len(lens, order[i]) * (|batch| + 1) > budget
    ensures Packing(batches + [batch], [order[i]], order, lens, budget, i + 1)
  {
    var none: Batch := [];
    CloseBatch(batches, batch, order, lens, budget, i);
    assert multiset(none) == multiset{};
    ExtendOpen(batches + [batch], none, order, lens, budget, i);
    assert none + [order[i]] == [order[i]];
  }

  lemma LongestSoFar(order: seq<nat>, lens: seq<nat>, i: nat, batches: seq<Batch>, batch: Batch)
    requires SortedByLen(order, lens) && i < |order| && Items(batches) + multiset(batch) == multiset(order[..i])
    ensures MaxLen(batch, lens) <= Len(lens, order[i])
    ensures MaxLen(batch + [order[i]], lens) == Len(lens, order[i]) == MaxLen([order[i]], lens)
  {
    NextIsLongest(order, lens, i, batches, batch);
    MaxLenAppend(batch, order[i], lens);
  }

  /** The greedy loop over the sorted examples. */
  method PackGreedily(order: seq<nat>, lens: seq<nat>, tokenBudget: int) returns (batches: seq<Batch>)
    requires SortedByLen(order, lens) && order != []
    ensures Greedy(batches, order, lens, tokenBudget)
    ensures forall b :: b in batches ==> Fits(b, lens, tokenBudget)
  {
    batches := [];
    var batch: Batch := [];
    var batchMax := 0;
    for i := 0 to |order|
      invariant Packing(batches, batch, order, lens, tokenBudget, i)
      invariant batchMax == MaxLen(batch, lens) && (i > 0 ==> batch != [])
    {
      var length := Len(lens, order[i]);
      var nextMax := if batchMax >= length then batchMax else length;
      LongestSoFar(order, lens, i, batches, batch);
      if |batch| > 0 && nextMax * (|batch| + 1) > tokenBudget {
        OpenNext(batches, batch, order, lens, tokenBudget, i);
        batches, batch, batchMax := batches + [batch], [order[i]], length;
      } else {
        TakeNext(batches, batch, order, lens, tokenBudget, i);
        batch, batchMax := batch + [order[i]], nextMax;
      }
    }
    PackingEnds(batches, batch, order, lens, tokenBudget);
    batches := batches + [batch];
  }

  /**
    Splits the examples into batches. Without a budget, or with at most one
    example, each is alone; with one, the batches are as few as possible.
  */
  method MakeTrainingBatches(lens: seq<nat>, tokenBudget: int) returns (batches: seq<Batch>)
    ensures Partition(batches, lens, tokenBudget)
    ensures |lens| <= 1 || tokenBudget <= 0 ==> |batches| == |lens| && forall i :: 0 <= i < |lens| ==> batches[i] == [i]
    ensures |lens| <= 1 || tokenBudget > 0 ==>
      forall other :: Partition(other, lens, tokenBudget) ==> |batches| <= |other|
  {
    if |lens| <= 1 || tokenBudget <= 0 {
      SingletonsCover(|lens|);
      forall other | Partition(other, lens, tokenBudget) && |lens| == 1 ensures |other| >= 1 {
        SingletonIsOptimal(other, lens, tokenBudget);
      }
      return Singletons(|lens|);
    }
    var order := OrderByLen(lens, |lens|);
    OrderByLenSorts(lens, |lens|);
    batches := PackGreedily(order, lens, tokenBudget);
    forall other | Partition(other, lens, tokenBudget) ensures |batches| <= |other| {
      GreedyIsOptimal(batches, other, order, lens, tokenBudget);
    }
  }

  // ---------- scattering the outputs back ----------

  lemma {:induction false} UptoOnce(n: nat, x: nat)
    ensures multiset(Upto(n))[x] == if x < n then 1 else 0
  {
    if n > 0 {
      UptoOnce(n - 1, x);
      UptoNext(n - 1);
    } else {
      assert Upto(0) == [];
    }
  }

  lemma Covered(batches: seq<Batch>, n: nat, i: nat, row: nat)
    requires Covers(batches, n) && i < |batches| && row < |batches[i]|
    ensures batches[i][row] < n
    ensures batches[i][row] !in Items(batches[..i]) && batches[i][row] !in batches[i][..row]
  {
    var x := batches[i][row];
    ItemsAround(batches, i);
    UptoOnce(n, x);
    AroundRow(batches[i], row);
    CountedOnce(multiset(batches[i][..row]), multiset(batches[i][row + 1..]), Items(batches[..i]), Items(batches[i + 1..]), x,
                Items(batches));
  }

  lemma AroundRow(batch: Batch, row: nat)
    requires row < |batch|
    ensures multiset(batch) == multiset(batch[..row]) + multiset{batch[row]} + multiset(batch[row + 1..])
  {
    assert batch == batch[..row] + [batch[row]] + batch[row + 1..];
  }

  lemma CountedOnce(a: multiset<nat>, b: multiset<nat>, before: multiset<nat>, after: multiset<nat>, x: nat, all: multiset<nat>)
    requires all == before + (a + multiset{x} + b) + after && all[x] <= 1
    ensures x in all && x !in before && x !in a
  {
  }

  /** Outputs already written for the first i batches and the first rows of the next. */
  ghost predicate Scattered<T>(outputs: seq<Option<T>>, batches: seq<Batch>, compute: (Batch, nat) -> T, i: nat, rows: nat)
  {
    forall j, row :: 0 <= j < |batches| && 0 <= row < |batches[j]| && (j < i || (j == i && row < rows)) ==>
      batches[j][row] < |outputs| && outputs[batches[j][row]] == Some(compute(batches[j], row))
  }

  /** Runs every batch and puts each row's result at its example's own position. */
  method RunBatches<T>(batches: seq<Batch>, compute: (Batch, nat) -> T, outputs: array<Option<T>>)
    requires Covers(batches, outputs.Length)
    modifies outputs
    ensures Scattered(outputs[..], batches, compute, |batches|, 0)
  {
    for i := 0 to |batches|
      invariant Scattered(outputs[..], batches, compute, i, 0)
    {
      for row := 0 to |batches[i]|
        invariant Scattered(outputs[..], batches, compute, i, row)
      {
        Covered(batches, outputs.Length, i, row);
        var at := batches[i][row];
        forall j, r | 0 <= j < |batches| && 0 <= r < |batches[j]| && (j < i || (j == i && r < row))
          ensures batches[j][r] != at
        {
          if j < i {
            ItemsAround(batches[..i], j);
            assert batches[..i][j] == batches[j] && batches[j][r] in multiset(batches[j]);
          } else {
            assert batches[i][..row][r] == batches[j][r];
          }
        }
        outputs[at] := Some(compute(batches[i], row));
      }
    }
  }

  /** The final check that every example got an output; after RunBatches it always passes. */
  method Finish<T>(outputs: seq<Option<T>>) returns (r: Result<seq<T>, string>)
    ensures r.Ok? <==> forall i :: 0 <= i < |outputs| ==> outputs[i].Some?
    ensures r.Ok? ==> |r.value| == |outputs| && forall i :: 0 <= i < |outputs| ==> outputs[i] == Some(r.value[i])
  {
    var completed: seq<T> := [];
    for i := 0 to |outputs|
      invariant |completed| == i && forall j :: 0 <= j < i ==> outputs[j] == Some(completed[j])
    {
      if outputs[i].None? {
        return Err("forward_backward did not produce one loss_fn_output per input datum");
      }
      completed := completed + [outputs[i].value];
    }
    return Ok(completed);
  }

  /** Batching, running and finishing: one output per example, computed in the batch that held it. */
  method ForwardBackward<T>(lens: seq<nat>, tokenBudget: int, compute: (Batch, nat) -> T)
    returns (batches: seq<Batch>, r: Result<seq<T>, string>)
    ensures Partition(batches, lens, tokenBudget)
    ensures r.Ok? && |r.value| == |lens|
    ensures forall j, row :: 0 <= j < |batches| && 0 <= row < |batches[j]| ==>
      batches[j][row] < |lens| && r.value[batches[j][row]] == compute(batches[j], row)
  {
    var outputs := new Option<T>[|lens|](_ => None);
    batches := MakeTrainingBatches(lens, tokenBudget);
    RunBatches(batches, compute, outputs);
    forall i | 0 <= i < |lens| ensures outputs[i].Some? {
      UptoOnce(|lens|, i);
      var j, row := InSomeBatch(batches, i);
    }
    r := Finish(outputs[..]);
    forall j, row | 0 <= j < |batches| && 0 <= row < |batches[j]|
      ensures batches[j][row] < |lens| && r.value[batches[j][row]] == compute(batches[j], row)
    {
      assert outputs[..][batches[j][row]] == Some(compute(batches[j], row));
    }
  }
}
