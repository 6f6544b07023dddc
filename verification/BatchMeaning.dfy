/**
  What the batches promise, in the examples' own lengths: one flat list of all
  examples, each once; no batch over the budget once padded; and no way of
  doing that with fewer batches. And the order in which examples are packed.
*/
module BatchMeaning {
  import opened Wrappers
  import opened TrainingBatches

  function Flat(batches: seq<seq<nat>>): seq<nat>
  {
    if batches == [] then [] else batches[0] + Flat(batches[1..])
  }

  lemma {:induction false} ItemsOfFlat(batches: seq<seq<nat>>)
    ensures multiset(Flat(batches)) == Items(batches)
  {
    if batches == [] {
    } else {
      ItemsOfFlat(batches[1..]);
    }
  }

  lemma {:induction false} UptoIsOnce(n: nat, s: seq<nat>)
    ensures multiset(s) == multiset(Upto(n)) <==> forall x: nat :: multiset(s)[x] == if x < n then 1 else 0
  {
    forall x: nat ensures multiset(Upto(n))[x] == if x < n then 1 else 0 {
      UptoOnce(n, x);
    }
    if forall x: nat :: multiset(s)[x] == if x < n then 1 else 0 {
      forall x: nat ensures multiset(s)[x] == multiset(Upto(n))[x] {
      }
    }
  }

  lemma Padded(a: nat, b: nat, size: nat)
    requires a <= b
    ensures a * size <= b * size
  {
  }

  /** Within the budget means that every example of it, padded over to the whole batch, is. */
  lemma FitsMeans(batch: seq<nat>, lens: seq<nat>, budget: int)
    requires forall x :: x in batch ==> x < |lens|
    ensures Fits(batch, lens, budget) <==>
              |batch| == 1 || (|batch| > 1 && forall x :: x in batch ==> lens[x] * |batch| <= budget)
  {
    if |batch| > 1 {
      var m := MaxLen(batch, lens);
      var longest :| longest in batch && Len(lens, longest) == m;
      forall x | x in batch ensures lens[x] * |batch| <= m * |batch| {
        Padded(Len(lens, x), m, |batch|);
      }
    }
  }

  /** The examples split into batches: each exactly once, and every batch alone or within the budget once padded. */
  ghost predicate Splits(batches: seq<seq<nat>>, lens: seq<nat>, budget: int)
  {
    && (forall x: nat :: multiset(Flat(batches))[x] == if x < |lens| then 1 else 0)
    && forall b :: b in batches ==> |b| == 1 || (|b| > 1 && forall x :: x in b ==> x < |lens| && lens[x] * |b| <= budget)
  }

  lemma {:induction false} InFlat(batches: seq<seq<nat>>, b: seq<nat>, x: nat)
    requires b in batches && x in b
    ensures x in Flat(batches)
  {
    if b == batches[0] {
    } else {
      assert b in batches[1..];
      InFlat(batches[1..], b, x);
    }
  }

  lemma SplitsIff(batches: seq<seq<nat>>, lens: seq<nat>, budget: int)
    ensures Splits(batches, lens, budget) <==> Partition(batches, lens, budget)
  {
    ItemsOfFlat(batches);
    UptoIsOnce(|lens|, Flat(batches));
    if Covers(batches, |lens|) {
      forall b, x | b in batches && x in b ensures x < |lens| {
        InFlat(batches, b, x);
        assert multiset(Flat(batches))[x] == if x < |lens| then 1 else 0;
      }
      forall b | b in batches
        ensures Fits(b, lens, budget) <==> |b| == 1 || (|b| > 1 && forall x :: x in b ==> lens[x] * |b| <= budget)
      {
        FitsMeans(b, lens, budget);
      }
    }
  }

  /** Batches that no fitting partition undercuts are as few as those of any split. */
  lemma NoSplitHasFewer(batches: seq<seq<nat>>, lens: seq<nat>, budget: int, other: seq<seq<nat>>)
    requires Partition(batches, lens, budget) && forall o :: Partition(o, lens, budget) ==> |batches| <= |o|
    requires Splits(other, lens, budget)
    ensures Splits(batches, lens, budget) && |batches| <= |other|
  {
    SplitsIff(batches, lens, budget);
    SplitsIff(other, lens, budget);
  }

  // ---------- the order of packing ----------

  /** Shorter first, and of equal lengths the earlier one. */
  ghost predicate Stable(order: seq<nat>, lens: seq<nat>)
  {
    forall i, j :: 0 <= i < j < |order| ==>
      Len(lens, order[i]) < Len(lens, order[j]) || (Len(lens, order[i]) == Len(lens, order[j]) && order[i] < order[j])
  }

  lemma StableCons(x: nat, rest: seq<nat>, lens: seq<nat>)
    requires Stable(rest, lens)
    requires forall y :: y in rest ==> Len(lens, x) < Len(lens, y) || (Len(lens, x) == Len(lens, y) && x < y)
    ensures Stable([x] + rest, lens)
  {
    assert forall k :: 0 <= k < |rest| ==> rest[k] in rest;
  }

  lemma {:induction false} InsertIsStable(order: seq<nat>, x: nat, lens: seq<nat>)
    requires Stable(order, lens) && forall y :: y in order ==> y < x
    ensures Stable(InsertByLen(order, x, lens), lens)
  {
    if order == [] {
    } else {
      var head, tail := order[0], order[1..];
      assert forall k :: 0 <= k < |tail| ==> tail[k] == order[k + 1];
      if Len(lens, x) < Len(lens, head) {
        StableCons(x, order, lens);
      } else {
        assert forall y :: y in tail ==> y in order;
        InsertIsStable(tail, x, lens);
        InsertByLenKeepsItems(tail, x, lens);
        var rest := InsertByLen(tail, x, lens);
        forall y | y in rest ensures Len(lens, head) < Len(lens, y) || (Len(lens, head) == Len(lens, y) && head < y) {
          assert y in multiset(rest);
          assert head in order;
        }
        StableCons(head, rest, lens);
      }
    }
  }

  lemma EarlierAreSmaller(lens: seq<nat>, n: nat)
    ensures forall y :: y in OrderByLen(lens, n) ==> y < n
  {
    OrderByLenSorts(lens, n);
    var earlier := OrderByLen(lens, n);
    forall y | y in earlier ensures y < n {
      assert y in multiset(earlier);
      UptoOnce(n, y);
    }
  }

  lemma {:induction false} OrderIsStable(lens: seq<nat>, n: nat)
    ensures Stable(OrderByLen(lens, n), lens)
  {
    if n > 0 {
      OrderIsStable(lens, n - 1);
      EarlierAreSmaller(lens, n - 1);
      InsertIsStable(OrderByLen(lens, n - 1), n - 1, lens);
    }
  }

  /** Examples are packed shortest first, and equally long ones in their own order. */
  lemma PackedInOrder(lens: seq<nat>, n: nat)
    ensures Stable(OrderByLen(lens, n), lens) && multiset(OrderByLen(lens, n)) == multiset(Upto(n))
  {
    OrderByLenSorts(lens, n);
    OrderIsStable(lens, n);
  }
}
