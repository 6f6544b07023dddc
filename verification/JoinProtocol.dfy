/**
  joinExistingClaim books first and then verifies against a fresh read of the
  fleet. The read is two list calls, claims and then ledgers, and anything may
  run between booking, the two lists and the decision. However the calls of any
  number of reconcilers interleave, the seats that passed the check fit their
  node's memory.

  The argument: give each verified seat the revision at which its join listed
  the claims. The join with the latest such revision saw every other verified
  seat, because each of them was booked, and its claim created, before its own
  earlier list.
*/
module JoinProtocol {
  import opened ClaimLedger

  /** The bytes of the seats that were booked at or before revision `t`. */
  function BytesSince(seats: seq<Seat>, since: map<nat, nat>, t: nat): nat
  {
    if seats == [] then 0
    else (if seats[0].id in since && since[seats[0].id] <= t then seats[0].hostBytes else 0) + BytesSince(seats[1..], since, t)
  }

  /** What a claim that existed at `t` still holds of the seats booked by then. */
  function OldWeight(cfg: Config, s: State, node: string, t: nat): Name -> nat
  {
    c => if c in cfg.nodeOf && cfg.nodeOf[c] == node && c in s.claims && s.claims[c] <= t
         then BytesSince(SeatsOf(s, c), s.since, t) else 0
  }

  predicate VerifiedSeat(s: State, claim: Name, seat: Seat)
  {
    && seat.id in s.verified && claim in s.claims
    && s.verified[seat.id].claim == claim && s.verified[seat.id].born == s.claims[claim]
  }

  function VerifiedSeatBytes(s: State, claim: Name, seats: seq<Seat>): nat
  {
    if seats == [] then 0
    else (if VerifiedSeat(s, claim, seats[0]) then seats[0].hostBytes else 0) + VerifiedSeatBytes(s, claim, seats[1..])
  }

  function VerifiedWeight(cfg: Config, s: State, node: string): Name -> nat
  {
    c => if c in cfg.nodeOf && cfg.nodeOf[c] == node then VerifiedSeatBytes(s, c, SeatsOf(s, c)) else 0
  }

  /** The host memory of the seats on this node that a join has verified and nobody has released. */
  function VerifiedBytes(cfg: Config, s: State, node: string): nat
  {
    Sum(cfg.claims, VerifiedWeight(cfg, s, node))
  }

  // ---------- sums ----------

  lemma {:induction false} SumMonotone(claims: seq<Name>, lower: Name -> nat, upper: Name -> nat)
    requires forall c :: c in claims ==> lower(c) <= upper(c)
    ensures Sum(claims, lower) <= Sum(claims, upper)
  {
    if claims == [] {
    } else {
      assert claims[0] in claims;
      SumMonotone(claims[1..], lower, upper);
    }
  }

  lemma {:induction false} BytesSinceAtMostBytes(seats: seq<Seat>, since: map<nat, nat>, t: nat)
    ensures BytesSince(seats, since, t) <= Bytes(seats)
  {
    if seats == [] {
    } else {
      BytesSinceAtMostBytes(seats[1..], since, t);
    }
  }

  lemma {:induction false} BytesSinceSplit(a: seq<Seat>, b: seq<Seat>, since: map<nat, nat>, t: nat)
    ensures BytesSince(a + b, since, t) == BytesSince(a, since, t) + BytesSince(b, since, t)
  {
    if a == [] {
      assert a + b == b;
    } else {
      assert (a + b)[1..] == a[1..] + b;
      BytesSinceSplit(a[1..], b, since, t);
    }
  }

  /** Stamping new seats with a later revision leaves the sums up to `t` alone. */
  lemma {:induction false} LaterStampsDoNotCount(seats: seq<Seat>, since: map<nat, nat>, later: map<nat, nat>, t: nat)
    requires forall id :: id in since ==> id in later && later[id] == since[id]
    requires forall id :: id in later && id !in since ==> later[id] > t
    ensures BytesSince(seats, later, t) == BytesSince(seats, since, t)
  {
    if seats == [] {
    } else {
      LaterStampsDoNotCount(seats[1..], since, later, t);
    }
  }

  lemma {:induction false} WithoutWeighsLess(seats: seq<Seat>, workload: string, since: map<nat, nat>, t: nat)
    ensures BytesSince(Without(seats, workload), since, t) <= BytesSince(seats, since, t)
  {
    if seats == [] {
    } else {
      WithoutWeighsLess(seats[1..], workload, since, t);
      BytesSinceSplit(if seats[0].workload == workload then [] else [seats[0]], Without(seats[1..], workload), since, t);
    }
  }

  /** A seat booked after `t` adds nothing, and the one it replaces can only leave. */
  lemma PlacedWeighsLess(seats: seq<Seat>, seat: Seat, since: map<nat, nat>, t: nat)
    requires seat.id !in since || since[seat.id] > t
    ensures BytesSince(Placed(seats, seat), since, t) <= BytesSince(seats, since, t)
  {
    match FindSeat(seats, seat.workload) {
      case None => BytesSinceSplit(seats, [seat], since, t);
      case Some(i) =>
        assert seats == seats[..i] + ([seats[i]] + seats[i + 1..]);
        assert seats[i := seat] == seats[..i] + ([seat] + seats[i + 1..]);
        BytesSinceSplit(seats[..i], [seats[i]] + seats[i + 1..], since, t);
        BytesSinceSplit(seats[..i], [seat] + seats[i + 1..], since, t);
    }
  }

  // ---------- the invariant ----------

  ghost predicate AllBooked(seats: seq<Seat>, since: map<nat, nat>)
  {
    forall seat :: seat in seats ==> seat.id in since
  }

  ghost predicate Dated(s: State)
  {
    && (forall c :: c in s.claims ==> s.claims[c] <= s.rev)
    && (forall id :: id in s.since ==> s.since[id] <= s.rev)
    && (forall c :: c in s.ledgers ==> AllBooked(s.ledgers[c].seats, s.since))
  }

  /** A pending join's seat was booked, and its claims listed, by revision `at`. */
  ghost predicate JoinOk(s: State, j: Join)
  {
    && j.at <= s.rev
    && j.seatId in s.since && s.since[j.seatId] <= j.at
    && (forall c :: c in j.listed ==> j.listed[c] <= j.at)
    && (forall c :: c in s.claims && s.claims[c] <= j.at ==> c in j.listed)
  }

  /** The seats that were there when this verdict's join listed its claims still fit. */
  ghost predicate VerdictFits(cfg: Config, s: State, v: Verdict)
  {
    v.claim in cfg.nodeOf && Checked(cfg, cfg.nodeOf[v.claim]) ==>
      var node := cfg.nodeOf[v.claim];
      ReservedOn(cfg, node) + Sum(cfg.claims, OldWeight(cfg, s, node, v.at)) <= cfg.hostMemory[node]
  }

  ghost predicate VerdictOk(s: State, id: nat, v: Verdict)
  {
    v.at <= s.rev && v.born <= v.at && id in s.since && s.since[id] <= v.at
  }

  ghost predicate Inv(cfg: Config, s: State)
  {
    && Dated(s)
    && (forall t :: t in s.joins ==> JoinOk(s, s.joins[t]))
    && (forall id :: id in s.verified ==> VerdictOk(s, id, s.verified[id]) && VerdictFits(cfg, s, s.verified[id]))
  }

  /** History only grows: old stamps stay, new ones are later than `s.rev`. */
  ghost predicate Extends(s: State, next: State)
  {
    && s.rev <= next.rev
    && (forall id :: id in s.since ==> id in next.since && next.since[id] == s.since[id])
    && (forall id :: id in next.since && id !in s.since ==> next.since[id] > s.rev)
    && (forall c :: c in next.claims && next.claims[c] <= s.rev ==> c in s.claims && s.claims[c] == next.claims[c])
  }

  lemma CommitKeepsDated(s: State, claim: Name, seats: seq<Seat>)
    requires Dated(s)
    ensures Dated(Commit(s, claim, seats)) && Extends(s, Commit(s, claim, seats))
  {
    var next := Commit(s, claim, seats);
    assert forall seat :: seat in seats ==> seat.id in next.since;
  }

  lemma ClaimsStepKeepsDated(cfg: Config, s: State, op: Op)
    requires op.CreateClaim? || op.DeleteClaim? || op.Retire?
    requires Dated(s)
    ensures Dated(Step(cfg, s, op)) && Extends(s, Step(cfg, s, op))
  {
  }

  lemma ListStepKeepsDated(cfg: Config, s: State, op: Op)
    requires op.ListClaims? || op.ListLedgers?
    requires Dated(s)
    ensures Dated(Step(cfg, s, op)) && Extends(s, Step(cfg, s, op))
  {
  }

  lemma StepKeepsDated(cfg: Config, s: State, op: Op)
    requires Dated(s)
    ensures Dated(Step(cfg, s, op)) && Extends(s, Step(cfg, s, op))
  {
    match op {
      case Book(c, seat, _) => CommitKeepsDated(s, c, Placed(SeatsOf(s, c), seat));
      case Vacate(c, w) => CommitKeepsDated(s, c, Without(SeatsOf(s, c), w));
      case Retire(_, _) => ClaimsStepKeepsDated(cfg, s, op);
      case CreateClaim(_) => ClaimsStepKeepsDated(cfg, s, op);
      case DeleteClaim(_) => ClaimsStepKeepsDated(cfg, s, op);
      case ListClaims(_, _, _) => ListStepKeepsDated(cfg, s, op);
      case ListLedgers(_) => ListStepKeepsDated(cfg, s, op);
    }
  }

  lemma SeatsWeighLess(cfg: Config, s: State, op: Op, t: nat, c: Name)
    requires Dated(s)
    ensures BytesSince(SeatsOf(Step(cfg, s, op), c), s.since, t) <= BytesSince(SeatsOf(s, c), s.since, t)
  {
    match op {
      case Book(_, seat, _) =>
        if seat.id !in s.since {
          PlacedWeighsLess(SeatsOf(s, c), seat, s.since, t);
        }
      case Vacate(_, w) => WithoutWeighsLess(SeatsOf(s, c), w, s.since, t);
      case _ =>
    }
  }

  /** No operation makes the seats booked by an earlier revision heavier. */
  lemma StepWeighsLess(cfg: Config, s: State, next: State, op: Op, node: string, t: nat, c: Name)
    requires Dated(s) && t <= s.rev && next == Step(cfg, s, op)
    ensures OldWeight(cfg, next, node, t)(c) <= OldWeight(cfg, s, node, t)(c)
  {
    StepKeepsDated(cfg, s, op);
    SeatsWeighLess(cfg, s, op, t, c);
    assert Extends(s, next);
    LaterStampsDoNotCount(SeatsOf(next, c), s.since, next.since, t);
  }

  lemma StepKeepsVerdict(cfg: Config, s: State, op: Op, v: Verdict)
    requires Dated(s) && v.at <= s.rev && VerdictFits(cfg, s, v)
    ensures VerdictFits(cfg, Step(cfg, s, op), v)
  {
    if v.claim in cfg.nodeOf {
      var node := cfg.nodeOf[v.claim];
      var next := Step(cfg, s, op);
      forall c | c in cfg.claims ensures OldWeight(cfg, next, node, v.at)(c) <= OldWeight(cfg, s, node, v.at)(c) {
        StepWeighsLess(cfg, s, next, op, node, v.at, c);
      }
      SumMonotone(cfg.claims, OldWeight(cfg, next, node, v.at), OldWeight(cfg, s, node, v.at));
    }
  }

  /** The check made at the second list covers everything booked before the first. */
  lemma PassingJoinFits(cfg: Config, s: State, j: Join)
    requires Dated(s) && JoinOk(s, j) && Passes(cfg, s, j)
    ensures VerdictFits(cfg, s, Verdict(j.claim, j.listed[j.claim], j.at))
  {
    if j.claim in cfg.nodeOf {
      var node := cfg.nodeOf[j.claim];
      forall c | c in cfg.claims ensures OldWeight(cfg, s, node, j.at)(c) <= ListedWeight(cfg, s, node, j.listed)(c) {
        BytesSinceAtMostBytes(SeatsOf(s, c), s.since, j.at);
      }
      SumMonotone(cfg.claims, OldWeight(cfg, s, node, j.at), ListedWeight(cfg, s, node, j.listed));
    }
  }

  lemma JoinStaysOk(s: State, next: State, j: Join)
    requires Extends(s, next) && JoinOk(s, j)
    ensures JoinOk(next, j)
  {
  }

  /** A pending join was pending before, or has just listed the claims. */
  lemma JoinsOfStep(cfg: Config, s: State, op: Op, t: nat)
    requires t in Step(cfg, s, op).joins
    ensures var j := Step(cfg, s, op).joins[t];
            (t in s.joins && j == s.joins[t]) ||
            (op.ListClaims? && op.seatId in s.since && j == Join(op.claim, op.seatId, s.rev, s.claims))
  {
  }

  lemma StepKeepsJoins(cfg: Config, s: State, op: Op, t: nat)
    requires Dated(s) && forall u :: u in s.joins ==> JoinOk(s, s.joins[u])
    requires t in Step(cfg, s, op).joins
    ensures JoinOk(Step(cfg, s, op), Step(cfg, s, op).joins[t])
  {
    StepKeepsDated(cfg, s, op);
    JoinsOfStep(cfg, s, op, t);
    JoinStaysOk(s, Step(cfg, s, op), Step(cfg, s, op).joins[t]);
  }

  /** A verdict was there before, or a pending join has just passed its check. */
  lemma VerdictsOfStep(cfg: Config, s: State, op: Op, id: nat)
    requires id in Step(cfg, s, op).verified
    ensures var v := Step(cfg, s, op).verified[id];
            (id in s.verified && v == s.verified[id]) ||
            (op.ListLedgers? && op.ticket in s.joins && Passes(cfg, s, s.joins[op.ticket]) &&
             var j := s.joins[op.ticket]; id == j.seatId && v == Verdict(j.claim, j.listed[j.claim], j.at))
  {
  }

  lemma VerdictStaysOk(s: State, next: State, id: nat, v: Verdict)
    requires Extends(s, next) && VerdictOk(s, id, v)
    ensures VerdictOk(next, id, v)
  {
  }

  lemma PassingVerdictOk(cfg: Config, s: State, j: Join)
    requires JoinOk(s, j) && Passes(cfg, s, j)
    ensures VerdictOk(s, j.seatId, Verdict(j.claim, j.listed[j.claim], j.at))
  {
  }

  lemma StepKeepsVerdicts(cfg: Config, s: State, op: Op, id: nat)
    requires Inv(cfg, s) && id in Step(cfg, s, op).verified
    ensures var next := Step(cfg, s, op);
            VerdictOk(next, id, next.verified[id]) && VerdictFits(cfg, next, next.verified[id])
  {
    var next := Step(cfg, s, op);
    var v := next.verified[id];
    StepKeepsDated(cfg, s, op);
    VerdictsOfStep(cfg, s, op, id);
    if id !in s.verified || v != s.verified[id] {
      PassingJoinFits(cfg, s, s.joins[op.ticket]);
      PassingVerdictOk(cfg, s, s.joins[op.ticket]);
    }
    VerdictStaysOk(s, next, id, v);
    StepKeepsVerdict(cfg, s, op, v);
  }

  lemma StepKeepsInv(cfg: Config, s: State, op: Op)
    requires Inv(cfg, s)
    ensures Inv(cfg, Step(cfg, s, op))
  {
    StepKeepsDated(cfg, s, op);
    forall t | t in Step(cfg, s, op).joins ensures JoinOk(Step(cfg, s, op), Step(cfg, s, op).joins[t]) {
      StepKeepsJoins(cfg, s, op, t);
    }
    forall id | id in Step(cfg, s, op).verified
      ensures VerdictOk(Step(cfg, s, op), id, Step(cfg, s, op).verified[id])
      ensures VerdictFits(cfg, Step(cfg, s, op), Step(cfg, s, op).verified[id])
    {
      StepKeepsVerdicts(cfg, s, op, id);
    }
  }

  lemma {:induction false} EveryRunKeepsInv(cfg: Config, s: State, ops: seq<Op>)
    requires Inv(cfg, s)
    ensures Inv(cfg, Run(cfg, s, ops))
    decreases |ops|
  {
    if ops == [] {
    } else {
      StepKeepsInv(cfg, s, ops[0]);
      EveryRunKeepsInv(cfg, Step(cfg, s, ops[0]), ops[1..]);
    }
  }

  // ---------- the theorem ----------

  /** The verdict on this node whose join listed its claims last. */
  lemma {:induction false} LatestVerdict(cfg: Config, s: State, node: string, ids: set<nat>) returns (latest: nat)
    requires ids != {} && forall id :: id in ids ==> id in s.verified
    ensures latest in ids
    ensures forall id :: id in ids ==> s.verified[id].at <= s.verified[latest].at
    decreases |ids|
  {
    latest :| latest in ids;
    var rest := ids - {latest};
    assert forall id :: id in ids ==> id == latest || id in rest;
    if rest == {} {
    } else {
      var other := LatestVerdict(cfg, s, node, rest);
      if s.verified[latest].at < s.verified[other].at {
        latest := other;
      }
    }
  }

  ghost function VerdictsOn(cfg: Config, s: State, node: string): set<nat>
  {
    set id | id in s.verified && s.verified[id].claim in cfg.nodeOf && cfg.nodeOf[s.verified[id].claim] == node
  }

  lemma {:induction false} VerifiedWeighsLess(s: State, claim: Name, seats: seq<Seat>, t: nat)
    requires forall seat :: seat in seats && VerifiedSeat(s, claim, seat) ==> seat.id in s.since && s.since[seat.id] <= t
    ensures VerifiedSeatBytes(s, claim, seats) <= BytesSince(seats, s.since, t)
  {
    if seats == [] {
    } else {
      assert seats[0] in seats;
      VerifiedWeighsLess(s, claim, seats[1..], t);
    }
  }

  lemma {:induction false} NothingVerifiedWeighsNothing(s: State, claim: Name, seats: seq<Seat>)
    requires forall seat :: seat in seats ==> !VerifiedSeat(s, claim, seat)
    ensures VerifiedSeatBytes(s, claim, seats) == 0
  {
    if seats == [] {
    } else {
      assert seats[0] in seats;
      NothingVerifiedWeighsNothing(s, claim, seats[1..]);
    }
  }

  /** On a node that reports its memory, the verified seats and the bytes reserved there fit. */
  ghost predicate WithinMemory(cfg: Config, s: State, node: string)
  {
    node in cfg.hostMemory && cfg.hostMemory[node] > 0 && VerifiedBytes(cfg, s, node) > 0 ==>
      VerifiedBytes(cfg, s, node) + (if node in cfg.reserved then cfg.reserved[node] else 0) <= cfg.hostMemory[node]
  }

  lemma InvWithinMemory(cfg: Config, s: State, node: string)
    requires Inv(cfg, s)
    ensures WithinMemory(cfg, s, node)
  {
    var on := VerdictsOn(cfg, s, node);
    if on == {} {
      forall c | c in cfg.claims ensures VerifiedWeight(cfg, s, node)(c) <= 0 {
        if c in cfg.nodeOf && cfg.nodeOf[c] == node {
          forall seat | seat in SeatsOf(s, c) ensures !VerifiedSeat(s, c, seat) {
            assert seat.id !in on;
          }
          NothingVerifiedWeighsNothing(s, c, SeatsOf(s, c));
        }
      }
      SumMonotone(cfg.claims, VerifiedWeight(cfg, s, node), c => 0);
      SumZero(cfg.claims);
    } else {
      var latest := LatestVerdict(cfg, s, node, on);
      var t := s.verified[latest].at;
      forall c | c in cfg.claims ensures VerifiedWeight(cfg, s, node)(c) <= OldWeight(cfg, s, node, t)(c) {
        LatestSawIt(cfg, s, node, latest, c);
      }
      SumMonotone(cfg.claims, VerifiedWeight(cfg, s, node), OldWeight(cfg, s, node, t));
    }
  }

  lemma {:induction false} SumZero(claims: seq<Name>)
    ensures Sum(claims, c => 0) == 0
  {
    if claims == [] {
    } else {
      SumZero(claims[1..]);
    }
  }

  /** Every verified seat on the node was booked, on a claim then alive, before the latest list. */
  lemma LatestSawIt(cfg: Config, s: State, node: string, latest: nat, c: Name)
    requires Inv(cfg, s) && latest in s.verified
    requires forall id :: id in VerdictsOn(cfg, s, node) ==> s.verified[id].at <= s.verified[latest].at
    ensures VerifiedWeight(cfg, s, node)(c) <= OldWeight(cfg, s, node, s.verified[latest].at)(c)
  {
    var t := s.verified[latest].at;
    if c in cfg.nodeOf && cfg.nodeOf[c] == node {
      forall seat | seat in SeatsOf(s, c) && VerifiedSeat(s, c, seat)
        ensures s.since[seat.id] <= t && s.claims[c] <= t
      {
        assert seat.id in VerdictsOn(cfg, s, node);
      }
      if exists seat :: seat in SeatsOf(s, c) && VerifiedSeat(s, c, seat) {
        VerifiedWeighsLess(s, c, SeatsOf(s, c), t);
      } else {
        NothingVerifiedWeighsNothing(s, c, SeatsOf(s, c));
      }
    }
  }

  /**
    No overcommit: after any sequence of bookings, releases, retirements, claim
    creations and deletions and list calls, by any number of reconcilers, the
    verified seats on a node and its reserved bytes fit its host memory.
  */
  lemma VerifiedSeatsFitTheirNode(cfg: Config, ops: seq<Op>, node: string)
    ensures WithinMemory(cfg, Run(cfg, INIT, ops), node)
  {
    EveryRunKeepsInv(cfg, INIT, ops);
    InvWithinMemory(cfg, Run(cfg, INIT, ops), node);
  }
}
