/**
  The claim ledgers as the API server holds them, and the writes the scheduler
  makes to them. Every write is one atomic operation here; Reconciler.dfy shows
  that the compare-and-swap loops perform exactly these.

  `since`, `joins` and `verified` are history: no object in the cluster stores
  them. They record at which revision a seat was booked, which joins are between
  their two list calls, and which seats a join has verified.
*/
module ClaimLedger {
  import opened Wrappers

  type Name = string

  datatype Seat = Seat(workload: string, uid: string, id: nat, owner: string, exclusive: bool, hostBytes: nat)

  datatype Ledger = Ledger(version: nat, seats: seq<Seat>)

  /** What stays fixed: where DRA allocated each claim, and each node's memory. */
  datatype Config = Config(claims: seq<Name>, nodeOf: map<Name, string>, hostMemory: map<string, nat>, reserved: map<string, nat>)

  /** A join that listed the claims at revision `at` and has not listed the ledgers yet. */
  datatype Join = Join(claim: Name, seatId: nat, at: nat, listed: map<Name, nat>)

  /** A seat verified on the incarnation of `claim` created at revision `born`. */
  datatype Verdict = Verdict(claim: Name, born: nat, at: nat)

  datatype State = State(
    rev: nat,
    ledgers: map<Name, Ledger>,
    claims: map<Name, nat>,
    since: map<nat, nat>,
    joins: map<nat, Join>,
    verified: map<nat, Verdict>)

  const INIT := State(0, map[], map[], map[], map[], map[])

  datatype Op =
    | Book(claim: Name, seat: Seat, createMissing: bool)
    | Vacate(claim: Name, workload: string)
    | Retire(claim: Name, workload: string)
    | CreateClaim(claim: Name)
    | DeleteClaim(claim: Name)
    | ListClaims(ticket: nat, claim: Name, seatId: nat)
    | ListLedgers(ticket: nat)

  // ---------- edits of a seat list ----------

  function FindSeat(seats: seq<Seat>, workload: string): (i: Option<nat>)
    ensures i.Some? ==> i.value < |seats| && seats[i.value].workload == workload
    ensures i.None? ==> forall k :: 0 <= k < |seats| ==> seats[k].workload != workload
  {
    if seats == [] then None
    else if seats[0].workload == workload then Some(0)
    else
      match FindSeat(seats[1..], workload)
      case None => None
      case Some(k) => Some(k + 1)
  }

  predicate Compatible(seats: seq<Seat>, seat: Seat)
  {
    forall other :: other in seats && other.workload != seat.workload ==> !seat.exclusive && !other.exclusive
  }

  /** The same incarnation already holds a seat, which is then adopted. */
  predicate Adopts(seats: seq<Seat>, seat: Seat)
  {
    var i := FindSeat(seats, seat.workload);
    i.Some? && seats[i.value].uid == seat.uid
  }

  function Placed(seats: seq<Seat>, seat: Seat): seq<Seat>
  {
    match FindSeat(seats, seat.workload)
    case None => seats + [seat]
    case Some(i) => seats[i := seat]
  }

  function Without(seats: seq<Seat>, workload: string): seq<Seat>
  {
    if seats == [] then []
    else (if seats[0].workload == workload then [] else [seats[0]]) + Without(seats[1..], workload)
  }

  // ---------- atomic operations ----------

  function Stamp(since: map<nat, nat>, seats: seq<Seat>, rev: nat): map<nat, nat>
  {
    since + map seat | seat in seats && seat.id !in since :: seat.id := rev
  }

  /** An accepted create or update of a ledger object. */
  function Commit(s: State, claim: Name, seats: seq<Seat>): State
  {
    s.(rev := s.rev + 1,
       ledgers := s.ledgers[claim := Ledger(s.rev + 1, seats)],
       since := Stamp(s.since, seats, s.rev + 1))
  }

  predicate BookEnabled(s: State, claim: Name, seat: Seat, createMissing: bool)
  {
    seat.id !in s.since &&
    if claim in s.ledgers
    then !Adopts(s.ledgers[claim].seats, seat) && Compatible(s.ledgers[claim].seats, seat)
    else createMissing
  }

  function SeatsOf(s: State, claim: Name): seq<Seat>
  {
    if claim in s.ledgers then s.ledgers[claim].seats else []
  }

  function Bytes(seats: seq<Seat>): nat
  {
    if seats == [] then 0 else seats[0].hostBytes + Bytes(seats[1..])
  }

  /** Sums a per-claim weight over the allocation table. */
  function Sum(claims: seq<Name>, weight: Name -> nat): nat
  {
    if claims == [] then 0 else weight(claims[0]) + Sum(claims[1..], weight)
  }

  /** What a ledger read now adds to a node, for the claims an earlier list returned. */
  function ListedWeight(cfg: Config, s: State, node: string, listed: map<Name, nat>): Name -> nat
  {
    c => if c in listed && c in cfg.nodeOf && cfg.nodeOf[c] == node then Bytes(SeatsOf(s, c)) else 0
  }

  function ReservedOn(cfg: Config, node: string): nat
  {
    if node in cfg.reserved then cfg.reserved[node] else 0
  }

  /** A node reporting no memory is not checked. */
  predicate Checked(cfg: Config, node: string)
  {
    node in cfg.hostMemory && cfg.hostMemory[node] > 0
  }

  predicate Passes(cfg: Config, s: State, j: Join)
  {
    j.claim in j.listed &&
    (j.claim in cfg.nodeOf && Checked(cfg, cfg.nodeOf[j.claim]) ==>
       var node := cfg.nodeOf[j.claim];
       ReservedOn(cfg, node) + Sum(cfg.claims, ListedWeight(cfg, s, node, j.listed)) <= cfg.hostMemory[node])
  }

  /** One operation, at whatever moment the interleaving puts it; a refused one changes nothing. */
  function Step(cfg: Config, s: State, op: Op): State
  {
    match op
    case Book(c, seat, createMissing) =>
      if BookEnabled(s, c, seat, createMissing) then Commit(s, c, Placed(SeatsOf(s, c), seat)) else s
    case Vacate(c, w) =>
      var kept := Without(SeatsOf(s, c), w);
      if 0 < |kept| < |SeatsOf(s, c)| then Commit(s, c, kept) else s
    case Retire(c, w) =>
      if c in s.ledgers && Without(s.ledgers[c].seats, w) == []
      then s.(rev := s.rev + 1, ledgers := s.ledgers - {c}) else s
    case CreateClaim(c) =>
      if c in s.claims then s else s.(rev := s.rev + 1, claims := s.claims[c := s.rev + 1])
    case DeleteClaim(c) =>
      if c in s.claims then s.(rev := s.rev + 1, claims := s.claims - {c}) else s
    case ListClaims(t, c, id) =>
      if t in s.joins || id !in s.since then s
      else s.(joins := s.joins[t := Join(c, id, s.rev, s.claims)])
    case ListLedgers(t) =>
      if t !in s.joins then s
      else
        var j := s.joins[t];
        var done := s.(joins := s.joins - {t});
        if Passes(cfg, s, j)
        then done.(verified := s.verified[j.seatId := Verdict(j.claim, j.listed[j.claim], j.at)])
        else done
  }

  function Run(cfg: Config, s: State, ops: seq<Op>): State
    decreases |ops|
  {
    if ops == [] then s else Run(cfg, Step(cfg, s, ops[0]), ops[1..])
  }

  lemma {:induction false} RunAppend(cfg: Config, s: State, a: seq<Op>, b: seq<Op>)
    ensures Run(cfg, s, a + b) == Run(cfg, Run(cfg, s, a), b)
    decreases |a|
  {
    if a == [] {
      assert a + b == b;
    } else {
      assert (a + b)[1..] == a[1..] + b;
      RunAppend(cfg, Step(cfg, s, a[0]), a[1..], b);
    }
  }

  // ---------- what every ledger keeps ----------

  ghost predicate DistinctWorkloads(seats: seq<Seat>)
  {
    forall i, j :: 0 <= i < j < |seats| ==> seats[i].workload != seats[j].workload
  }

  ghost predicate LedgerOk(seats: seq<Seat>)
  {
    && seats != []
    && DistinctWorkloads(seats)
    && (forall i :: 0 <= i < |seats| && seats[i].exclusive ==> |seats| == 1)
  }

  ghost predicate LedgersOk(s: State)
  {
    forall c :: c in s.ledgers ==> LedgerOk(s.ledgers[c].seats)
  }

  lemma PlacedContents(seats: seq<Seat>, seat: Seat)
    ensures forall x :: x in Placed(seats, seat) ==> x == seat || x in seats
    ensures seat in Placed(seats, seat)
    ensures forall x :: x in seats && x.workload != seat.workload ==> x in Placed(seats, seat)
  {
    var after := Placed(seats, seat);
    match FindSeat(seats, seat.workload) {
      case None => assert after[|seats|] == seat;
      case Some(i) =>
        assert after[i] == seat;
        forall x | x in seats && x.workload != seat.workload ensures x in after {
          var k :| 0 <= k < |seats| && seats[k] == x;
          assert after[k] == x;
        }
    }
  }

  lemma {:induction false} WithoutContents(seats: seq<Seat>, workload: string)
    ensures forall x :: x in Without(seats, workload) <==> x in seats && x.workload != workload
    ensures |Without(seats, workload)| <= |seats|
    ensures |Without(seats, workload)| == |seats| ==> Without(seats, workload) == seats
  {
    if seats == [] {
    } else {
      WithoutContents(seats[1..], workload);
      assert seats == [seats[0]] + seats[1..];
    }
  }

  lemma {:induction false} WithoutKeepsOk(seats: seq<Seat>, workload: string)
    requires LedgerOk(seats) && Without(seats, workload) != []
    ensures LedgerOk(Without(seats, workload))
  {
    WithoutContents(seats, workload);
    var kept := Without(seats, workload);
    if |kept| < |seats| {
      // A seat left, so there were at least two and none was exclusive.
      assert forall x :: x in seats ==> !x.exclusive;
    }
    WithoutDistinct(seats, workload);
  }

  lemma ConsDistinct(seat: Seat, rest: seq<Seat>)
    requires DistinctWorkloads(rest) && forall x :: x in rest ==> x.workload != seat.workload
    ensures DistinctWorkloads([seat] + rest)
  {
    assert forall k :: 0 <= k < |rest| ==> rest[k] in rest;
  }

  lemma TailDistinct(seats: seq<Seat>)
    requires DistinctWorkloads(seats) && seats != []
    ensures DistinctWorkloads(seats[1..]) && forall x :: x in seats[1..] ==> x.workload != seats[0].workload
  {
  }

  lemma {:induction false} WithoutDistinct(seats: seq<Seat>, workload: string)
    requires DistinctWorkloads(seats)
    ensures DistinctWorkloads(Without(seats, workload))
  {
    if seats == [] {
    } else {
      TailDistinct(seats);
      WithoutDistinct(seats[1..], workload);
      WithoutContents(seats[1..], workload);
      if seats[0].workload != workload {
        ConsDistinct(seats[0], Without(seats[1..], workload));
      }
    }
  }

  lemma PlacedKeepsOk(seats: seq<Seat>, seat: Seat)
    requires seats == [] || LedgerOk(seats)
    requires Compatible(seats, seat)
    ensures LedgerOk(Placed(seats, seat))
  {
    match FindSeat(seats, seat.workload) {
      case None =>
      case Some(i) =>
        if |seats| > 1 {
          var m := if i == 0 then 1 else 0;
          assert seats[m] in seats && !seat.exclusive;
        }
    }
  }

  lemma StepKeepsLedgersOk(cfg: Config, s: State, op: Op)
    requires LedgersOk(s)
    ensures LedgersOk(Step(cfg, s, op))
  {
    match op {
      case Book(c, seat, createMissing) =>
        if BookEnabled(s, c, seat, createMissing) {
          PlacedKeepsOk(SeatsOf(s, c), seat);
        }
      case Vacate(c, w) =>
        var kept := Without(SeatsOf(s, c), w);
        if 0 < |kept| < |SeatsOf(s, c)| {
          WithoutKeepsOk(SeatsOf(s, c), w);
        }
      case _ =>
    }
  }

  /** In every reachable state each ledger has a seat, one per workload, and an exclusive one only alone. */
  lemma {:induction false} EveryRunKeepsLedgersOk(cfg: Config, s: State, ops: seq<Op>)
    requires LedgersOk(s)
    ensures LedgersOk(Run(cfg, s, ops))
    decreases |ops|
  {
    if ops == [] {
    } else {
      StepKeepsLedgersOk(cfg, s, ops[0]);
      EveryRunKeepsLedgersOk(cfg, Step(cfg, s, ops[0]), ops[1..]);
    }
  }

  // ---------- what the writes do ----------

  /** On a ledger with one seat per name: the incarnation has no seat there, and nobody else's seat forbids sharing. */
  lemma MayBookMeans(seats: seq<Seat>, seat: Seat)
    requires DistinctWorkloads(seats)
    ensures !Adopts(seats, seat) && Compatible(seats, seat) <==>
              forall x :: x in seats ==>
                if x.workload == seat.workload then x.uid != seat.uid else !x.exclusive && !seat.exclusive
  {
    var i := FindSeat(seats, seat.workload);
    assert i.Some? ==> seats[i.value] in seats && forall k :: 0 <= k < |seats| && k != i.value ==> seats[k].workload != seat.workload;
  }

  lemma PlacedMeans(seats: seq<Seat>, seat: Seat)
    requires DistinctWorkloads(seats)
    ensures forall x :: x in Placed(seats, seat) <==> x == seat || (x in seats && x.workload != seat.workload)
  {
    PlacedContents(seats, seat);
    var i := FindSeat(seats, seat.workload);
    if i.Some? {
      assert forall k :: 0 <= k < |seats| && k != i.value ==> Placed(seats, seat)[k] == seats[k] && seats[k].workload != seat.workload;
    }
  }

  /**
    A booking takes effect if and only if the seat is new and either the ledger
    is missing and may be created, or no seat there is the incarnation's own or
    one of another workload that either side excludes. It replaces the seat under
    its name, keeps all others, and gives the ledger a newer version.
  */
  lemma BookMeans(cfg: Config, s: State, claim: Name, seat: Seat, createMissing: bool)
    requires LedgersOk(s)
    ensures var z := Step(cfg, s, Book(claim, seat, createMissing));
            if seat.id !in s.since &&
               (if claim in s.ledgers
                then forall x :: x in s.ledgers[claim].seats ==>
                       if x.workload == seat.workload then x.uid != seat.uid else !x.exclusive && !seat.exclusive
                else createMissing)
            then claim in z.ledgers && z.ledgers[claim].version == z.rev == s.rev + 1 && z.claims == s.claims &&
                 (forall c :: c != claim ==> (c in z.ledgers <==> c in s.ledgers) && (c in s.ledgers ==> z.ledgers[c] == s.ledgers[c])) &&
                 forall x :: x in z.ledgers[claim].seats <==>
                   x == seat || (claim in s.ledgers && x in s.ledgers[claim].seats && x.workload != seat.workload)
            else z == s
  {
    MayBookMeans(SeatsOf(s, claim), seat);
    PlacedMeans(SeatsOf(s, claim), seat);
  }

  /**
    A release under a name: it takes the name's seats off a ledger that others
    are on too, and the whole ledger away if nobody else is.
  */
  lemma ReleaseMeans(cfg: Config, s: State, claim: Name, workload: string)
    requires LedgersOk(s) && claim in s.ledgers
    ensures var seats, z, y := s.ledgers[claim].seats, Step(cfg, s, Vacate(claim, workload)), Step(cfg, s, Retire(claim, workload));
            && (if exists x :: x in seats && x.workload != workload
                then y == s && claim in z.ledgers &&
                     forall x :: x in z.ledgers[claim].seats <==> x in seats && x.workload != workload
                else z == s && y.ledgers == s.ledgers - {claim})
            && z.claims == y.claims == s.claims
  {
    var seats := s.ledgers[claim].seats;
    WithoutContents(seats, workload);
    assert Without(seats, workload) == [] <==> !exists x :: x in seats && x.workload != workload by {
      if Without(seats, workload) != [] {
        assert Without(seats, workload)[0] in Without(seats, workload);
      }
    }
  }

  // ---------- who can take a seat or a ledger away ----------

  lemma ReplacedSeat(seats: seq<Seat>, other: Seat, seat: Seat)
    requires seat in seats
    ensures !Adopts(seats, other) && seat !in Placed(seats, other) ==> other.workload == seat.workload && other.uid != seat.uid
  {
    var k :| 0 <= k < |seats| && seats[k] == seat;
    assert k < |Placed(seats, other)| && (Placed(seats, other)[k] == seat || FindSeat(seats, other.workload) == Some(k));
  }

  /** A booked seat goes only by a release or a newer incarnation under its own workload name. */
  lemma SeatsAreOnlyLostByName(cfg: Config, s: State, op: Op, claim: Name, seat: Seat)
    requires seat in SeatsOf(s, claim)
    requires seat !in SeatsOf(Step(cfg, s, op), claim)
    ensures op == Vacate(claim, seat.workload) || op == Retire(claim, seat.workload) ||
            (op.Book? && op.claim == claim && op.seat.workload == seat.workload && op.seat.uid != seat.uid)
  {
    match op {
      case Book(c, other, _) => ReplacedSeat(SeatsOf(s, c), other, seat);
      case Vacate(c, w) => WithoutContents(SeatsOf(s, c), w);
      case Retire(c, w) => WithoutContents(SeatsOf(s, c), w);
      case _ =>
    }
  }

  /** A ledger disappears only by a retirement that saw nothing but the releaser's own seats. */
  lemma LedgersAreOnlyRetiredByTheLastSeat(cfg: Config, s: State, op: Op, claim: Name)
    requires claim in s.ledgers && claim !in Step(cfg, s, op).ledgers
    ensures op.Retire? && op.claim == claim
    ensures forall seat :: seat in s.ledgers[claim].seats ==> seat.workload == op.workload
  {
    if op.Retire? {
      WithoutContents(SeatsOf(s, op.claim), op.workload);
    }
  }

  /** The tombstone: a retired ledger stays absent until a booking that may create it. */
  lemma {:induction false} RetiredUntilRecreated(cfg: Config, s: State, ops: seq<Op>, claim: Name)
    requires claim !in s.ledgers
    ensures claim !in Run(cfg, s, ops).ledgers ||
            exists i :: 0 <= i < |ops| && ops[i].Book? && ops[i].claim == claim && ops[i].createMissing
    decreases |ops|
  {
    if ops == [] {
    } else {
      var next := Step(cfg, s, ops[0]);
      if claim in next.ledgers {
        assert ops[0].Book? && ops[0].claim == claim && ops[0].createMissing;
      } else {
        RetiredUntilRecreated(cfg, next, ops[1..], claim);
        if i :| 0 <= i < |ops[1..]| && ops[1..][i].Book? && ops[1..][i].claim == claim && ops[1..][i].createMissing {
          assert ops[i + 1] == ops[1..][i];
        }
      }
    }
  }

  // ---------- versions ----------

  ghost predicate VersionsBounded(s: State)
  {
    forall c :: c in s.ledgers ==> s.ledgers[c].version <= s.rev
  }

  lemma StepVersions(cfg: Config, s: State, op: Op, claim: Name)
    requires VersionsBounded(s)
    ensures var t := Step(cfg, s, op);
            VersionsBounded(t) && s.rev <= t.rev &&
            (claim in t.ledgers && t.ledgers[claim].version <= s.rev ==>
               claim in s.ledgers && s.ledgers[claim] == t.ledgers[claim])
  {
  }

  /** Why compare-and-swap works: a ledger seen again at the same version is the same ledger. */
  lemma {:induction false} SameVersionSameLedger(cfg: Config, s: State, ops: seq<Op>, claim: Name)
    requires VersionsBounded(s)
    ensures var t := Run(cfg, s, ops);
            VersionsBounded(t) && s.rev <= t.rev &&
            (claim in t.ledgers && t.ledgers[claim].version <= s.rev ==>
               claim in s.ledgers && s.ledgers[claim] == t.ledgers[claim])
    decreases |ops|
  {
    if ops == [] {
    } else {
      StepVersions(cfg, s, ops[0], claim);
      SameVersionSameLedger(cfg, Step(cfg, s, ops[0]), ops[1..], claim);
    }
  }
}
