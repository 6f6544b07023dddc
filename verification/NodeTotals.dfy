/**
  A node's totals without the order of claims or seats: sums over the places at
  which seats are booked. And the no-overcommit theorem in those terms.
*/
module NodeTotals {
  import opened ClaimLedger
  import opened JoinProtocol
  import Placement

  /** A seat's place: its claim, and its index in that claim's ledger. */
  type Place = (Name, int)

  ghost predicate Taken(s: State, places: set<Place>)
  {
    forall p :: p in places ==> p.0 in s.ledgers && 0 <= p.1 < |s.ledgers[p.0].seats|
  }

  /** The bytes booked at some places. */
  ghost function BytesAt(s: State, places: set<Place>): int
    requires Taken(s, places)
  {
    Placement.Sum(map p | p in places :: s.ledgers[p.0].seats[p.1].hostBytes as int)
  }

  lemma BytesWithOneMore(s: State, places: set<Place>, p: Place)
    requires Taken(s, places + {p}) && p !in places
    ensures BytesAt(s, places + {p}) == BytesAt(s, places) + s.ledgers[p.0].seats[p.1].hostBytes
  {
    var before := map q | q in places :: s.ledgers[q.0].seats[q.1].hostBytes as int;
    var after := map q | q in places + {p} :: s.ledgers[q.0].seats[q.1].hostBytes as int;
    assert after == before[p := s.ledgers[p.0].seats[p.1].hostBytes as int];
    Placement.SumAdd(before, p, s.ledgers[p.0].seats[p.1].hostBytes as int);
  }

  lemma NoPlaces(s: State, places: set<Place>)
    requires places == {}
    ensures BytesAt(s, places) == 0
  {
  }

  /** More places, more bytes. */
  lemma {:induction false} FewerPlaces(s: State, some: set<Place>, all: set<Place>)
    requires Taken(s, all) && some <= all
    ensures BytesAt(s, some) <= BytesAt(s, all)
    decreases |all - some|
  {
    if some == all {
    } else {
      var p :| p in all && p !in some;
      BytesWithOneMore(s, some, p);
      FewerPlaces(s, some + {p}, all);
    }
  }

  // ---------- the seats of one claim ----------

  type Filter = (Name, Seat) -> bool

  function KeptBytes(c: Name, seats: seq<Seat>, keep: Filter): nat
  {
    if seats == [] then 0 else (if keep(c, seats[0]) then seats[0].hostBytes else 0) + KeptBytes(c, seats[1..], keep)
  }

  lemma {:induction false} KeptAppend(c: Name, seats: seq<Seat>, seat: Seat, keep: Filter)
    ensures KeptBytes(c, seats + [seat], keep) == KeptBytes(c, seats, keep) + if keep(c, seat) then seat.hostBytes else 0
  {
    if seats == [] {
      assert [] + [seat] == [seat];
    } else {
      assert (seats + [seat])[1..] == seats[1..] + [seat];
      KeptAppend(c, seats[1..], seat, keep);
    }
  }

  /** The places of the kept ones among a claim's first n seats. */
  function PlacesIn(c: Name, seats: seq<Seat>, n: nat, keep: Filter): set<Place>
    requires n <= |seats|
  {
    set i | 0 <= i < n && keep(c, seats[i]) :: (c, i)
  }

  lemma {:induction false} PrefixBytes(s: State, others: set<Place>, c: Name, n: nat, keep: Filter)
    requires c in s.ledgers && n <= |s.ledgers[c].seats| && Taken(s, others) && forall p :: p in others ==> p.0 != c
    ensures Taken(s, others + PlacesIn(c, s.ledgers[c].seats, n, keep))
    ensures BytesAt(s, others + PlacesIn(c, s.ledgers[c].seats, n, keep)) ==
            BytesAt(s, others) + KeptBytes(c, s.ledgers[c].seats[..n], keep)
  {
    var seats := s.ledgers[c].seats;
    if n == 0 {
      assert others + PlacesIn(c, seats, 0, keep) == others;
    } else {
      PrefixBytes(s, others, c, n - 1, keep);
      assert seats[..n] == seats[..n - 1] + [seats[n - 1]];
      KeptAppend(c, seats[..n - 1], seats[n - 1], keep);
      var earlier := others + PlacesIn(c, seats, n - 1, keep);
      if keep(c, seats[n - 1]) {
        assert others + PlacesIn(c, seats, n, keep) == earlier + {(c, n - 1)};
        BytesWithOneMore(s, earlier, (c, n - 1));
      } else {
        assert PlacesIn(c, seats, n, keep) == PlacesIn(c, seats, n - 1, keep);
      }
    }
  }

  // ---------- the seats of many claims ----------

  ghost function PlacesOf(s: State, names: seq<Name>, keep: Filter): set<Place>
  {
    set c, i | c in names && c in s.ledgers && 0 <= i < |s.ledgers[c].seats| && keep(c, s.ledgers[c].seats[i]) :: (c, i)
  }

  ghost predicate Distinct(names: seq<Name>)
  {
    forall i, j :: 0 <= i < j < |names| ==> names[i] != names[j]
  }

  lemma OneMoreClaim(s: State, names: seq<Name>, keep: Filter)
    requires names != [] && names[0] !in names[1..]
    ensures Taken(s, PlacesOf(s, names, keep)) && Taken(s, PlacesOf(s, names[1..], keep))
    ensures BytesAt(s, PlacesOf(s, names, keep)) ==
            BytesAt(s, PlacesOf(s, names[1..], keep)) + KeptBytes(names[0], SeatsOf(s, names[0]), keep)
  {
    var c, others := names[0], PlacesOf(s, names[1..], keep);
    assert forall d :: d in names <==> d == c || d in names[1..];
    if c in s.ledgers {
      var seats := s.ledgers[c].seats;
      assert PlacesOf(s, names, keep) == others + PlacesIn(c, seats, |seats|, keep);
      PrefixBytes(s, others, c, |seats|, keep);
      assert seats[..|seats|] == seats;
    } else {
      assert PlacesOf(s, names, keep) == others;
    }
  }

  /** The sum over a list of claims is the sum over places, unless the list counts a claim twice. */
  lemma {:induction false} Totals(s: State, names: seq<Name>, keep: Filter, weight: Name -> nat)
    requires forall c :: c in names ==> weight(c) == KeptBytes(c, SeatsOf(s, c), keep)
    ensures Taken(s, PlacesOf(s, names, keep)) && BytesAt(s, PlacesOf(s, names, keep)) <= Sum(names, weight)
    ensures Distinct(names) ==> BytesAt(s, PlacesOf(s, names, keep)) == Sum(names, weight)
  {
    if names == [] {
      NoPlaces(s, PlacesOf(s, names, keep));
    } else {
      Totals(s, names[1..], keep, weight);
      if names[0] in names[1..] {
        var k :| 0 <= k < |names[1..]| && names[1..][k] == names[0];
        assert names[k + 1] == names[0];
        assert PlacesOf(s, names, keep) == PlacesOf(s, names[1..], keep);
      } else {
        OneMoreClaim(s, names, keep);
      }
    }
  }

  // ---------- what the fleet read counts ----------


  lemma {:induction false} AllKept(c: Name, seats: seq<Seat>, keep: Filter)
    requires forall x :: x in seats ==> keep(c, x)
    ensures KeptBytes(c, seats, keep) == Bytes(seats)
  {
    if seats == [] {
    } else {
      assert seats[0] in seats;
      AllKept(c, seats[1..], keep);
    }
  }

  lemma {:induction false} NoneKept(c: Name, seats: seq<Seat>, keep: Filter)
    requires forall x :: x in seats ==> !keep(c, x)
    ensures KeptBytes(c, seats, keep) == 0
  {
    if seats == [] {
    } else {
      assert seats[0] in seats;
      NoneKept(c, seats[1..], keep);
    }
  }

  /** The total a join compares: every seat booked on every listed claim of the node, once. */
  lemma ListedTotal(cfg: Config, s: State, node: string, listed: map<Name, nat>) returns (places: set<Place>)
    requires Distinct(cfg.claims)
    ensures Taken(s, places) && Sum(cfg.claims, ListedWeight(cfg, s, node, listed)) == BytesAt(s, places)
    ensures forall c, i :: (c, i) in places <==>
              c in cfg.claims && c in listed && c in cfg.nodeOf && cfg.nodeOf[c] == node && c in s.ledgers && 0 <= i < |s.ledgers[c].seats|
  {
    var keep := (c: Name, seat: Seat) => c in listed && c in cfg.nodeOf && cfg.nodeOf[c] == node;
    forall c | c in cfg.claims ensures ListedWeight(cfg, s, node, listed)(c) == KeptBytes(c, SeatsOf(s, c), keep) {
      if c in listed && c in cfg.nodeOf && cfg.nodeOf[c] == node {
        AllKept(c, SeatsOf(s, c), keep);
      } else {
        NoneKept(c, SeatsOf(s, c), keep);
      }
    }
    places := PlacesOf(s, cfg.claims, keep);
    Totals(s, cfg.claims, keep, ListedWeight(cfg, s, node, listed));
  }

  // ---------- the theorem ----------

  lemma {:induction false} VerifiedKept(s: State, c: Name, seats: seq<Seat>, keep: Filter)
    requires forall x :: x in seats ==> (keep(c, x) <==> VerifiedSeat(s, c, x))
    ensures KeptBytes(c, seats, keep) == VerifiedSeatBytes(s, c, seats)
  {
    if seats == [] {
    } else {
      assert seats[0] in seats;
      VerifiedKept(s, c, seats[1..], keep);
    }
  }

  lemma VerifiedTotal(cfg: Config, s: State, node: string, places: set<Place>)
    requires Taken(s, places)
    requires forall p :: p in places ==>
               p.0 in cfg.claims && p.0 in cfg.nodeOf && cfg.nodeOf[p.0] == node && VerifiedSeat(s, p.0, s.ledgers[p.0].seats[p.1])
    ensures BytesAt(s, places) <= VerifiedBytes(cfg, s, node)
  {
    var keep := (c: Name, seat: Seat) => c in cfg.nodeOf && cfg.nodeOf[c] == node && VerifiedSeat(s, c, seat);
    forall c | c in cfg.claims ensures VerifiedWeight(cfg, s, node)(c) == KeptBytes(c, SeatsOf(s, c), keep) {
      if c in cfg.nodeOf && cfg.nodeOf[c] == node {
        VerifiedKept(s, c, SeatsOf(s, c), keep);
      } else {
        NoneKept(c, SeatsOf(s, c), keep);
      }
    }
    Totals(s, cfg.claims, keep, VerifiedWeight(cfg, s, node));
    FewerPlaces(s, places, PlacesOf(s, cfg.claims, keep));
  }

  /**
    No overcommit, for any selection of seats: after any sequence of operations,
    whatever verified seats one picks on the claims of a node that reports its
    memory, their bytes and the node's reserved bytes together fit that memory.
  */
  lemma AnyVerifiedSeatsFit(cfg: Config, ops: seq<Op>, node: string, places: set<Place>)
    requires node in cfg.hostMemory && cfg.hostMemory[node] > 0
    requires Taken(Run(cfg, INIT, ops), places) && BytesAt(Run(cfg, INIT, ops), places) > 0
    requires forall p :: p in places ==> p.0 in cfg.claims && p.0 in cfg.nodeOf && cfg.nodeOf[p.0] == node
    requires var s := Run(cfg, INIT, ops);
             forall p :: p in places ==>
               (var id := s.ledgers[p.0].seats[p.1].id;
                p.0 in s.claims && id in s.verified && s.verified[id].claim == p.0 && s.verified[id].born == s.claims[p.0])
    ensures var bytes := BytesAt(Run(cfg, INIT, ops), places);
            && bytes <= cfg.hostMemory[node]
            && (node in cfg.reserved ==> cfg.reserved[node] + bytes <= cfg.hostMemory[node])
  {
    VerifiedTotal(cfg, Run(cfg, INIT, ops), node, places);
    VerifiedSeatsFitTheirNode(cfg, ops, node);
  }
}
