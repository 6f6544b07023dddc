/**
  The reconciler's calls as the controller makes them: bounded compare-and-swap
  loops over reads and conditional writes of the cluster, with any operations of
  other reconcilers between any two calls. Each loop is shown to perform exactly
  the atomic operations of ClaimLedger.dfy, so what is proved there for every
  interleaving of operations holds for these calls too.
*/
module Reconciler {
  import opened Wrappers
  import opened ClaimLedger
  import opened JoinProtocol

  const BOOK_ATTEMPTS := 5

  datatype WriteOutcome = Written | Conflict | NotFound

  datatype Booking =
    | Booked(seat: Seat)
    | Contended
    | BookingFailed
    | ApiError

  datatype Joining =
    | Joined(seat: Seat)
    | NotJoined
    | JoinFailed

  // ---------- lemmas about runs ----------

  /** The operation books a seat under this ID or belongs to the join it names. */
  predicate Uses(op: Op, id: nat)
  {
    match op
    case Book(_, seat, _) => seat.id == id
    case ListClaims(ticket, _, _) => ticket == id
    case ListLedgers(ticket) => ticket == id
    case _ => false
  }

  lemma {:induction false} FreshStaysFresh(cfg: Config, s: State, ops: seq<Op>, id: nat)
    requires Dated(s) && id !in s.since
    requires forall op :: op in ops ==> !Uses(op, id)
    ensures id !in Run(cfg, s, ops).since
    decreases |ops|
  {
    if ops == [] {
    } else {
      StepKeepsDated(cfg, s, ops[0]);
      assert ops[0] in ops;
      FreshAfterStep(cfg, s, ops[0], id);
      FreshStaysFresh(cfg, Step(cfg, s, ops[0]), ops[1..], id);
    }
  }

  lemma FreshAfterStep(cfg: Config, s: State, op: Op, id: nat)
    requires Dated(s) && id !in s.since && !Uses(op, id)
    ensures id !in Step(cfg, s, op).since
  {
    match op {
      case Book(c, seat, _) => PlacedContents(SeatsOf(s, c), seat);
      case Vacate(c, w) => WithoutContents(SeatsOf(s, c), w);
      case _ =>
    }
  }

  lemma StepKeepsStamps(cfg: Config, s: State, op: Op)
    ensures s.since.Keys <= Step(cfg, s, op).since.Keys
  {
  }

  lemma {:induction false} StampsStay(cfg: Config, s: State, ops: seq<Op>)
    ensures s.since.Keys <= Run(cfg, s, ops).since.Keys
    decreases |ops|
  {
    if ops == [] {
    } else {
      StepKeepsStamps(cfg, s, ops[0]);
      StampsStay(cfg, Step(cfg, s, ops[0]), ops[1..]);
    }
  }

  ghost predicate SameJoin(s: State, t: State, ticket: nat)
  {
    if ticket in s.joins then ticket in t.joins && t.joins[ticket] == s.joins[ticket] else ticket !in t.joins
  }

  lemma StepKeepsTicket(cfg: Config, s: State, op: Op, ticket: nat)
    requires !Uses(op, ticket)
    ensures SameJoin(s, Step(cfg, s, op), ticket)
  {
  }

  /** A list call of a join that is still pending is untouched by operations under other tickets. */
  lemma {:induction false} TicketStays(cfg: Config, s: State, ops: seq<Op>, ticket: nat)
    requires forall op :: op in ops ==> !Uses(op, ticket)
    ensures SameJoin(s, Run(cfg, s, ops), ticket)
    decreases |ops|
  {
    if ops == [] {
    } else {
      assert ops[0] in ops;
      StepKeepsTicket(cfg, s, ops[0], ticket);
      TicketStays(cfg, Step(cfg, s, ops[0]), ops[1..], ticket);
    }
  }

  lemma {:induction false} WithoutAppend(seats: seq<Seat>, seat: Seat, workload: string)
    ensures Without(seats + [seat], workload) ==
            Without(seats, workload) + (if seat.workload == workload then [] else [seat])
  {
    if seats == [] {
    } else {
      assert (seats + [seat])[1..] == seats[1..] + [seat];
      WithoutAppend(seats[1..], seat, workload);
    }
  }

  lemma {:induction false} SumAppend(claims: seq<Name>, claim: Name, weight: Name -> nat)
    ensures Sum(claims + [claim], weight) == Sum(claims, weight) + weight(claim)
  {
    if claims == [] {
      assert claims + [claim] == [claim];
    } else {
      assert (claims + [claim])[1..] == claims[1..] + [claim];
      SumAppend(claims[1..], claim, weight);
    }
  }

  lemma EveryRunIsDated(cfg: Config, log: seq<Op>)
    ensures var s := Run(cfg, INIT, log);
            VersionsBounded(s) && forall c :: c in s.ledgers ==> AllBooked(s.ledgers[c].seats, s.since)
  {
    SameVersionSameLedger(cfg, INIT, log, "");
    EveryRunKeepsInv(cfg, INIT, log);
  }

  // ---------- the cluster ----------

  /** The API server, and what the other reconcilers will do before each of our next calls. */
  class Cluster {
    const cfg: Config
    var state: State
    var schedule: seq<seq<Op>>
    // All operations so far, the ones this controller made, and the writes it lost to a conflict.
    ghost var log: seq<Op>
    ghost var own: seq<Op>
    ghost var lost: nat
    // The calls that failed with an error.
    ghost var faults: nat

    // The assignment ID we mint; it also names our join.
    const id: nat

    /** The logged operations lead to this state, and no one else books or joins under our ID. */
    ghost predicate Valid()
      reads this
    {
      && state == Run(cfg, INIT, log)
      && forall chunk, op :: chunk in schedule && op in chunk ==> !Uses(op, id)
    }

    constructor (cfg: Config, schedule: seq<seq<Op>>, id: nat)
      requires forall chunk, op :: chunk in schedule && op in chunk ==> !Uses(op, id)
      ensures Valid() && this.cfg == cfg && this.schedule == schedule && this.id == id
      ensures state == INIT && log == [] && own == [] && lost == 0 && faults == 0
    {
      this.cfg := cfg;
      this.schedule := schedule;
      this.id := id;
      state := INIT;
      log, own, lost, faults := [], [], 0, 0;
    }

    /** Any call may fail, and has written nothing then. */
    method Fails() returns (failed: bool)
      modifies `faults
      ensures faults == old(faults) + if failed then 1 else 0
    {
      failed := *;
      if failed {
        faults := faults + 1;
      }
    }

    /** Whatever the others do before our next call. */
    method Others()
      requires Valid()
      modifies `state, `schedule, `log
      ensures Valid() && VersionsBounded(state) && old(log) <= log
      ensures state == if old(schedule) == [] then old(state) else Run(cfg, old(state), old(schedule)[0])
      ensures forall c :: c in state.ledgers ==> AllBooked(state.ledgers[c].seats, state.since)
      ensures id !in old(state).since ==> id !in state.since
      ensures old(state).since.Keys <= state.since.Keys && SameJoin(old(state), state, id)
      ensures forall c :: c in state.ledgers && state.ledgers[c].version <= old(state).rev ==>
                c in old(state).ledgers && state.ledgers[c] == old(state).ledgers[c]
    {
      EveryRunIsDated(cfg, log);
      if schedule != [] {
        var chunk, s := schedule[0], state;
        assert chunk in schedule;
        var i := 0;
        while i < |chunk|
          invariant 0 <= i <= |chunk|
          invariant Run(cfg, s, chunk[i..]) == Run(cfg, state, chunk)
        {
          s := Step(cfg, s, chunk[i]);
          assert chunk[i..][1..] == chunk[i + 1..];
          i := i + 1;
        }
        WhatOthersLeaveAlone(chunk);
        RunAppend(cfg, INIT, log, chunk);
        schedule, state, log := schedule[1..], s, log + chunk;
        EveryRunIsDated(cfg, log);
      }
    }

    lemma WhatOthersLeaveAlone(chunk: seq<Op>)
      requires Valid() && chunk in schedule
      ensures var s := Run(cfg, state, chunk);
        && (id !in state.since ==> id !in s.since) && SameJoin(state, s, id) && state.since.Keys <= s.since.Keys
        && (forall c :: c in s.ledgers && s.ledgers[c].version <= state.rev ==> c in state.ledgers && s.ledgers[c] == state.ledgers[c])
    {
      var s := Run(cfg, state, chunk);
      EveryRunIsDated(cfg, log);
      EveryRunKeepsInv(cfg, INIT, log);
      if id !in state.since {
        FreshStaysFresh(cfg, state, chunk, id);
      }
      TicketStays(cfg, state, chunk, id);
      StampsStay(cfg, state, chunk);
      forall c ensures c in s.ledgers && s.ledgers[c].version <= state.rev ==>
                         c in state.ledgers && s.ledgers[c] == state.ledgers[c]
      {
        SameVersionSameLedger(cfg, state, chunk, c);
      }
    }

    method Create(claim: Name, seats: seq<Seat>, ghost op: Op) returns (created: bool)
      requires Valid()
      requires claim !in state.ledgers ==> Step(cfg, state, op) == Commit(state, claim, seats)
      modifies `state, `log, `own, `lost
      ensures Valid() && created == (claim !in old(state).ledgers)
      ensures created ==> state == Commit(old(state), claim, seats) && own == old(own) + [op] && lost == old(lost)
      ensures !created ==> state == old(state) && own == old(own) && lost == old(lost) + 1
    {
      created := claim !in state.ledgers;
      if created {
        RunAppend(cfg, INIT, log, [op]);
        state := Commit(state, claim, seats);
        log, own := log + [op], own + [op];
      } else {
        lost := lost + 1;
      }
    }

    /** A write conditioned on the version that was read. */
    method Update(claim: Name, version: nat, seats: seq<Seat>, ghost op: Op) returns (outcome: WriteOutcome)
      requires Valid()
      requires claim in state.ledgers && state.ledgers[claim].version == version ==>
                 Step(cfg, state, op) == Commit(state, claim, seats)
      modifies `state, `log, `own, `lost
      ensures Valid() && outcome == OutcomeFor(old(state), claim, version) && old(log) <= log
      ensures outcome == Written ==> state == Commit(old(state), claim, seats) && own == old(own) + [op] && lost == old(lost)
      ensures outcome != Written ==> state == old(state) && own == old(own) && lost == old(lost) + 1
    {
      outcome := OutcomeFor(state, claim, version);
      if outcome == Written {
        RunAppend(cfg, INIT, log, [op]);
        state := Commit(state, claim, seats);
        log, own := log + [op], own + [op];
      } else {
        lost := lost + 1;
      }
    }

    /** A delete conditioned on the version that was read. */
    method Delete(claim: Name, version: nat, ghost op: Op) returns (outcome: WriteOutcome)
      requires Valid()
      requires claim in state.ledgers && state.ledgers[claim].version == version ==>
                 Step(cfg, state, op) == state.(rev := state.rev + 1, ledgers := state.ledgers - {claim})
      modifies `state, `log, `own, `lost
      ensures Valid() && outcome == OutcomeFor(old(state), claim, version) && old(log) <= log
      ensures outcome == Written ==>
        claim !in state.ledgers && own == old(own) + [op] && lost == old(lost) && state == Step(cfg, old(state), op)
      ensures outcome != Written ==> state == old(state) && own == old(own) && lost == old(lost) + 1
    {
      outcome := OutcomeFor(state, claim, version);
      if outcome == Written {
        RunAppend(cfg, INIT, log, [op]);
        state := state.(rev := state.rev + 1, ledgers := state.ledgers - {claim});
        log, own := log + [op], own + [op];
      } else {
        lost := lost + 1;
      }
    }

    /** Calls on claims, and the two list calls, which need no version. */
    method Call(op: Op)
      requires Valid()
      modifies `state, `log, `own
      ensures Valid() && state == Step(cfg, old(state), op) && own == old(own) + [op] && log == old(log) + [op]
    {
      RunAppend(cfg, INIT, log, [op]);
      state := Step(cfg, state, op);
      log, own := log + [op], own + [op];
    }
  }

  function OutcomeFor(s: State, claim: Name, version: nat): WriteOutcome
  {
    if claim !in s.ledgers then NotFound
    else if s.ledgers[claim].version == version then Written
    else Conflict
  }

  // ---------- ensureSeat ----------

  /** findSeat: the first seat under the workload's name. */
  method LocateSeat(seats: seq<Seat>, workload: string) returns (found: Option<nat>)
    ensures found == FindSeat(seats, workload)
    ensures found.Some? ==> found.value < |seats| && seats[found.value].workload == workload &&
                            forall k :: 0 <= k < found.value ==> seats[k].workload != workload
  {
    var i := 0;
    while i < |seats|
      invariant 0 <= i <= |seats|
      invariant forall k :: 0 <= k < i ==> seats[k].workload != workload
      invariant FindSeat(seats, workload) ==
                match FindSeat(seats[i..], workload) case None => None case Some(k) => Some(i + k)
    {
      assert seats[i..][1..] == seats[i + 1..];
      if seats[i].workload == workload {
        return Some(i);
      }
      i := i + 1;
    }
    return None;
  }

  /** The recheck on the consistent ledger: an exclusive seat shares with nobody. */
  method CheckCompatible(seats: seq<Seat>, seat: Seat) returns (ok: bool)
    ensures ok == Compatible(seats, seat)
    ensures !ok <==> exists i :: 0 <= i < |seats| && seats[i].workload != seat.workload && (seat.exclusive || seats[i].exclusive)
  {
    for i := 0 to |seats|
      invariant forall j :: 0 <= j < i && seats[j].workload != seat.workload ==> !seat.exclusive && !seats[j].exclusive
    {
      if seats[i].workload != seat.workload && (seat.exclusive || seats[i].exclusive) {
        assert seats[i] in seats;
        return false;
      }
    }
    return true;
  }

  /** What a booking answer says about the ledger and about the writes made since `own`. */
  twostate predicate BookingDone(k: Cluster, claim: Name, seat: Seat, createMissing: bool, r: Booking)
    reads k
  {
    match r
    case Booked(held) =>
      && held in SeatsOf(k.state, claim) && held.workload == seat.workload && held.uid == seat.uid
      && if held == seat then k.own == old(k.own) + [Book(claim, seat, createMissing)] else k.own == old(k.own)
    case Contended => k.own == old(k.own) && seat.id !in k.state.since
    case BookingFailed => k.own == old(k.own) && seat.id !in k.state.since && claim !in k.state.ledgers
    case ApiError => k.own == old(k.own) && seat.id !in k.state.since
  }

  /** Why a booking was refused outright: a joiner found no ledger, or an exclusive seat would have to share. */
  ghost predicate Refused(s: State, claim: Name, seat: Seat, createMissing: bool)
  {
    if claim !in s.ledgers then !createMissing
    else exists i :: 0 <= i < |s.ledgers[claim].seats| && s.ledgers[claim].seats[i].workload != seat.workload &&
                     (seat.exclusive || s.ledgers[claim].seats[i].exclusive)
  }

  /** What one pass of the loop answers, and why. */
  twostate predicate PassDone(k: Cluster, claim: Name, seat: Seat, createMissing: bool, new r: Option<Booking>)
    reads k
  {
    && (r.Some? ==> BookingDone(k, claim, seat, createMissing, r.value))
    && (r.Some? && r.value.Contended? ==> Refused(k.state, claim, seat, createMissing))
    && (r.None? ==> k.own == old(k.own) && seat.id !in k.state.since)
    && k.lost == old(k.lost) + (if r.None? || r.value.BookingFailed? then 1 else 0)
    && k.faults == old(k.faults) + (if r == Some(ApiError) then 1 else 0)
  }

  /** No ledger: the founder creates it, a joiner must not. */
  method TryFound(k: Cluster, claim: Name, seat: Seat, createMissing: bool) returns (r: Option<Booking>)
    requires k.Valid() && seat.id == k.id && seat.id !in k.state.since && claim !in k.state.ledgers
    modifies k
    ensures k.Valid() && PassDone(k, claim, seat, createMissing, r)
    ensures SameJoin(old(k.state), k.state, k.id)
  {
    if !createMissing {
      return Some(Contended);
    }
    k.Others();
    var failed := k.Fails();
    if failed {
      return Some(ApiError);
    }
    assert [] + [seat] == [seat];
    var created := k.Create(claim, [seat], Book(claim, seat, createMissing));
    return if created then Some(Booked(seat)) else None;
  }

  /** The ledger as edited, written back on condition that nobody wrote meanwhile. */
  method TryUpdate(k: Cluster, claim: Name, read: Ledger, existing: Option<nat>, seat: Seat, createMissing: bool)
    returns (r: Option<Booking>)
    requires k.Valid() && seat.id == k.id && seat.id !in k.state.since
    requires claim in k.state.ledgers && k.state.ledgers[claim] == read
    requires VersionsBounded(k.state) && existing == FindSeat(read.seats, seat.workload)
    requires !Adopts(read.seats, seat) && Compatible(read.seats, seat)
    modifies k
    ensures k.Valid() && PassDone(k, claim, seat, createMissing, r)
    ensures SameJoin(old(k.state), k.state, k.id)
  {
    var edited := if existing.Some? then read.seats[existing.value := seat] else read.seats + [seat];
    k.Others();
    var failed := k.Fails();
    if failed {
      return Some(ApiError);
    }
    var outcome := k.Update(claim, read.version, edited, Book(claim, seat, createMissing));
    match outcome {
      case Written =>
        PlacedContents(read.seats, seat);
        return Some(Booked(seat));
      case NotFound => return Some(BookingFailed);
      case Conflict => return None;
    }
  }

  /** One pass of the loop: read, edit, conditional write; any call may fail. None means another write came first. */
  method TryBook(k: Cluster, claim: Name, seat: Seat, createMissing: bool) returns (r: Option<Booking>)
    requires k.Valid() && seat.id == k.id && seat.id !in k.state.since
    modifies k
    ensures k.Valid() && PassDone(k, claim, seat, createMissing, r)
    ensures SameJoin(old(k.state), k.state, k.id)
  {
    k.Others();
    var failed := k.Fails();
    if failed {
      return Some(ApiError);
    }
    if claim !in k.state.ledgers {
      r := TryFound(k, claim, seat, createMissing);
      return r;
    }
    var read := k.state.ledgers[claim];
    var existing := LocateSeat(read.seats, seat.workload);
    if existing.Some? && read.seats[existing.value].uid == seat.uid {
      return Some(Booked(read.seats[existing.value]));
    }
    var compatible := CheckCompatible(read.seats, seat);
    if !compatible {
      return Some(Contended);
    }
    r := TryUpdate(k, claim, read, existing, seat, createMissing);
  }

  /**
    Books a seat in one compare-and-swap loop. A success leaves the seat on the
    ledger and made either exactly one booking or, the seat being adopted, no
    write; any other answer made no write at all.
  */
  method EnsureSeat(k: Cluster, claim: Name, seat: Seat, createMissing: bool) returns (r: Booking)
    requires k.Valid() && seat.id == k.id && seat.id !in k.state.since
    modifies k
    ensures k.Valid()
    ensures BookingDone(k, claim, seat, createMissing, r)
    ensures SameJoin(old(k.state), k.state, k.id)
    ensures r.Contended? ==> Refused(k.state, claim, seat, createMissing) || k.lost == old(k.lost) + 5
    ensures old(k.lost) <= k.lost <= old(k.lost) + 5 && (r.BookingFailed? ==> k.lost > old(k.lost))
    ensures k.faults == old(k.faults) + if r.ApiError? then 1 else 0
  {
    var attempt := 0;
    while attempt < BOOK_ATTEMPTS
      invariant 0 <= attempt <= BOOK_ATTEMPTS
      invariant k.Valid() && seat.id !in k.state.since && seat.id == k.id
      invariant k.own == old(k.own) && k.lost == old(k.lost) + attempt && k.faults == old(k.faults)
      invariant SameJoin(old(k.state), k.state, k.id)
    {
      var tried := TryBook(k, claim, seat, createMissing);
      if tried.Some? {
        return tried.value;
      }
      attempt := attempt + 1;
    }
    return Contended;
  }

  // ---------- releaseSeatAndReclaim ----------

  /** The seats a release keeps. */
  method SeatsOfOthers(seats: seq<Seat>, workload: string) returns (kept: seq<Seat>)
    ensures kept == Without(seats, workload)
  {
    kept := [];
    for i := 0 to |seats|
      invariant kept == Without(seats[..i], workload)
    {
      assert seats[..i + 1] == seats[..i] + [seats[i]];
      WithoutAppend(seats[..i], seats[i], workload);
      if seats[i].workload != workload {
        kept := kept + [seats[i]];
      }
    }
    assert seats[..|seats|] == seats;
  }

  ghost predicate NoSeatUnder(s: State, claim: Name, workload: string)
  {
    forall seat :: seat in SeatsOf(s, claim) ==> seat.workload != workload
  }

  /**
    What a release that answered `ok` has written, and what it leaves behind. A
    failed one wrote nothing, or retired the ledger and failed to delete the claim.
    A claim is deleted only after a moment, `gone`, at which it had no ledger.
  */
  twostate predicate ReleaseDone(k: Cluster, claim: Name, workload: string, ok: bool, new gone: seq<Op>)
    reads k
  {
    if !ok then k.own == old(k.own) || k.own == old(k.own) + [Retire(claim, workload)]
    else
      || ((k.own == old(k.own) || k.own == old(k.own) + [Vacate(claim, workload)]) &&
          claim in k.state.ledgers && NoSeatUnder(k.state, claim, workload))
      || ((k.own == old(k.own) + [DeleteClaim(claim)] || k.own == old(k.own) + [Retire(claim, workload), DeleteClaim(claim)]) &&
          claim !in k.state.claims && old(k.log) <= gone <= k.log && claim !in Run(k.cfg, INIT, gone).ledgers)
  }

  /** A write was lost because the ledger is gone. */
  twostate predicate LedgerVanished(k: Cluster, claim: Name)
    reads k
  {
    claim !in k.state.ledgers && k.lost > old(k.lost)
  }

  /** deleteClaim: an absent claim counts as deleted, and the call may fail with the claim still there. */
  method DeleteClaimOf(k: Cluster, claim: Name) returns (ok: bool)
    requires k.Valid()
    modifies k
    ensures k.Valid() && old(k.log) <= k.log
    ensures if ok then k.own == old(k.own) + [DeleteClaim(claim)] && claim !in k.state.claims else k.own == old(k.own)
    ensures k.lost == old(k.lost) && k.faults == old(k.faults) + if ok then 0 else 1
  {
    k.Others();
    var failed := k.Fails();
    if failed {
      return false;
    }
    k.Call(DeleteClaim(claim));
    return true;
  }

  /** The last seat goes with its ledger, and the claim after it. A ledger already gone does not matter. */
  method RetireAndReclaim(k: Cluster, claim: Name, version: nat, workload: string) returns (r: Option<bool>, ghost gone: seq<Op>)
    requires k.Valid()
    requires claim in k.state.ledgers && k.state.ledgers[claim].version == version ==>
               Step(k.cfg, k.state, Retire(claim, workload)) ==
               k.state.(rev := k.state.rev + 1, ledgers := k.state.ledgers - {claim})
    modifies k
    ensures k.Valid() && old(k.log) <= k.log
    ensures r.Some? ==> ReleaseDone(k, claim, workload, r.value, gone)
    ensures r.None? ==> k.own == old(k.own) && k.lost == old(k.lost) + 1
    ensures k.faults >= old(k.faults) && k.lost >= old(k.lost)
    ensures r == Some(false) ==> k.faults > old(k.faults) || LedgerVanished(k, claim)
  {
    var outcome := k.Delete(claim, version, Retire(claim, workload));
    if outcome == Conflict {
      return None, [];
    }
    gone := k.log;
    var ok := DeleteClaimOf(k, claim);
    assert [Retire(claim, workload)] + [DeleteClaim(claim)] == [Retire(claim, workload), DeleteClaim(claim)];
    return Some(ok), gone;
  }

  /** The ledger without the worker's seat, written back on condition that nobody wrote meanwhile. */
  method WriteKept(k: Cluster, claim: Name, version: nat, kept: seq<Seat>, workload: string) returns (r: Option<bool>, ghost gone: seq<Op>)
    requires k.Valid() && forall seat :: seat in kept ==> seat.workload != workload
    requires claim in k.state.ledgers && k.state.ledgers[claim].version == version ==>
               Step(k.cfg, k.state, Vacate(claim, workload)) == Commit(k.state, claim, kept)
    modifies k
    ensures k.Valid() && old(k.log) <= k.log
    ensures r.Some? ==> ReleaseDone(k, claim, workload, r.value, gone)
    ensures r.None? ==> k.own == old(k.own) && k.lost == old(k.lost) + 1
    ensures k.faults >= old(k.faults) && k.lost >= old(k.lost)
    ensures r == Some(false) ==> k.faults > old(k.faults) || LedgerVanished(k, claim)
  {
    var outcome := k.Update(claim, version, kept, Vacate(claim, workload));
    match outcome {
      case Written => return Some(true), [];
      case NotFound => return Some(false), [];
      case Conflict => return None, [];
    }
  }

  /** The second half of a pass, from the read ledger to the conditional write. */
  method WriteRelease(k: Cluster, claim: Name, read: Ledger, kept: seq<Seat>, workload: string) returns (r: Option<bool>, ghost gone: seq<Op>)
    requires k.Valid() && VersionsBounded(k.state) && claim in k.state.ledgers && k.state.ledgers[claim] == read
    requires kept == Without(read.seats, workload) && (kept == [] || |kept| < |read.seats|)
    modifies k
    ensures k.Valid() && old(k.log) <= k.log
    ensures r.Some? ==> ReleaseDone(k, claim, workload, r.value, gone)
    ensures r.None? ==> k.own == old(k.own) && k.lost == old(k.lost) + 1
    ensures k.faults >= old(k.faults) && k.lost >= old(k.lost)
    ensures r == Some(false) ==> k.faults > old(k.faults) || LedgerVanished(k, claim)
  {
    k.Others();
    var failed := k.Fails();
    if failed {
      return Some(false), [];
    }
    if |kept| == 0 {
      r, gone := RetireAndReclaim(k, claim, read.version, workload);
    } else {
      WithoutContents(read.seats, workload);
      r, gone := WriteKept(k, claim, read.version, kept, workload);
    }
  }

  /** One pass of the loop. None means another write came between the read and ours. */
  method TryRelease(k: Cluster, claim: Name, workload: string) returns (r: Option<bool>, ghost gone: seq<Op>)
    requires k.Valid()
    modifies k
    ensures k.Valid() && old(k.log) <= k.log
    ensures r.Some? ==> ReleaseDone(k, claim, workload, r.value, gone)
    ensures r.None? ==> k.own == old(k.own) && k.lost == old(k.lost) + 1
    ensures k.faults >= old(k.faults) && k.lost >= old(k.lost)
    ensures r == Some(false) ==> k.faults > old(k.faults) || LedgerVanished(k, claim)
  {
    k.Others();
    var failed := k.Fails();
    if failed {
      return Some(false), [];
    }
    if claim !in k.state.ledgers {
      gone := k.log;
      var ok := DeleteClaimOf(k, claim);
      return Some(ok), gone;
    }
    var read := k.state.ledgers[claim];
    var kept := SeatsOfOthers(read.seats, workload);
    WithoutContents(read.seats, workload);
    if |kept| == |read.seats| && kept != [] {
      return Some(true), [];
    }
    r, gone := WriteRelease(k, claim, read, kept, workload);
  }

  /**
    Releases the seat under a name in one compare-and-swap loop. Success either
    leaves a ledger without such a seat, having written at most the removal, or
    has deleted the claim, after a ledger found absent or retired at a version
    that held nothing else. Failure wrote nothing, or retired the ledger and
    could not delete the claim: a call failed then, or the ledger vanished before
    the write, or five writes were lost.
  */
  method ReleaseSeatAndReclaim(k: Cluster, claim: Name, workload: string) returns (ok: bool, ghost gone: seq<Op>)
    requires k.Valid()
    modifies k
    ensures k.Valid() && ReleaseDone(k, claim, workload, ok, gone) && old(k.log) <= k.log
    ensures !ok ==> k.faults > old(k.faults) || LedgerVanished(k, claim) || k.lost == old(k.lost) + 5
    ensures k.faults >= old(k.faults) && k.lost >= old(k.lost)
  {
    var attempt := 0;
    while attempt < BOOK_ATTEMPTS
      invariant k.Valid() && k.own == old(k.own) && old(k.log) <= k.log
      invariant 0 <= attempt <= BOOK_ATTEMPTS && k.lost == old(k.lost) + attempt && k.faults >= old(k.faults)
    {
      var tried;
      tried, gone := TryRelease(k, claim, workload);
      if tried.Some? {
        return tried.value, gone;
      }
      attempt := attempt + 1;
    }
    return false, [];
  }

  // ---------- joinExistingClaim ----------

  /** Every write among the operations is to this claim or its ledger. */
  predicate OnlyOn(ops: seq<Op>, claim: Name)
  {
    forall i :: 0 <= i < |ops| ==> ops[i].ListLedgers? || ops[i].claim == claim
  }

  /** NodeHostBytes over a fleet snapshot: the reserved bytes and every seat on the node's listed claims. */
  method NodeHostBytes(cfg: Config, s: State, node: string, listed: map<Name, nat>) returns (total: nat)
    ensures total == Sum(cfg.claims, ListedWeight(cfg, s, node, listed)) + (if node in cfg.reserved then cfg.reserved[node] else 0)
  {
    total := ReservedOn(cfg, node);
    for i := 0 to |cfg.claims|
      invariant total == ReservedOn(cfg, node) + Sum(cfg.claims[..i], ListedWeight(cfg, s, node, listed))
    {
      assert cfg.claims[..i + 1] == cfg.claims[..i] + [cfg.claims[i]];
      SumAppend(cfg.claims[..i], cfg.claims[i], ListedWeight(cfg, s, node, listed));
      total := total + ListedWeight(cfg, s, node, listed)(cfg.claims[i]);
    }
    assert cfg.claims[..|cfg.claims|] == cfg.claims;
  }

  /** The comparison: the claim was listed, and its node either reports no memory or has enough. */
  method FitsListed(cfg: Config, s: State, claim: Name, listed: map<Name, nat>) returns (fits: bool)
    ensures fits <==>
              && claim in listed
              && (claim in cfg.nodeOf && cfg.nodeOf[claim] in cfg.hostMemory && cfg.hostMemory[cfg.nodeOf[claim]] > 0 ==>
                    var node := cfg.nodeOf[claim];
                    Sum(cfg.claims, ListedWeight(cfg, s, node, listed)) +
                      (if node in cfg.reserved then cfg.reserved[node] else 0) <= cfg.hostMemory[node])
  {
    fits := claim in listed;
    if fits && claim in cfg.nodeOf && Checked(cfg, cfg.nodeOf[claim]) {
      var total := NodeHostBytes(cfg, s, cfg.nodeOf[claim], listed);
      fits := total <= cfg.hostMemory[cfg.nodeOf[claim]];
    }
  }

  lemma PassesMeans(cfg: Config, s: State, j: Join)
    ensures Passes(cfg, s, j) <==>
              && j.claim in j.listed
              && (j.claim in cfg.nodeOf && cfg.nodeOf[j.claim] in cfg.hostMemory && cfg.hostMemory[cfg.nodeOf[j.claim]] > 0 ==>
                    var node := cfg.nodeOf[j.claim];
                    Sum(cfg.claims, ListedWeight(cfg, s, node, j.listed)) +
                      (if node in cfg.reserved then cfg.reserved[node] else 0) <= cfg.hostMemory[node])
  {
  }

  /**
    The second half of a join: list the claims, list the ledgers, and compare
    the node's total with its memory. The answer is whether the claim was listed
    and the total, with the bytes reserved there, is within the memory of a node
    that reports any; an answer of true is a verified seat. `fleet` is the
    cluster as the ledgers were listed.
  */
  method VerifyJoin(k: Cluster, claim: Name, seatId: nat) returns (fits: bool, ghost fleet: State)
    requires k.Valid() && k.id !in k.state.joins && seatId in k.state.since
    modifies k
    ensures k.Valid()
    ensures k.own == old(k.own) + [ListClaims(k.id, claim, seatId), ListLedgers(k.id)]
    ensures fits ==> seatId in k.state.verified && k.state.verified[seatId].claim == claim
    ensures k.state == Step(k.cfg, fleet, ListLedgers(k.id))
    ensures k.id in fleet.joins && fleet.joins[k.id].claim == claim && fleet.joins[k.id].seatId == seatId
    ensures var listed := fleet.joins[k.id].listed;
            fits <==>
              && claim in listed
              && (claim in k.cfg.nodeOf && k.cfg.nodeOf[claim] in k.cfg.hostMemory && k.cfg.hostMemory[k.cfg.nodeOf[claim]] > 0 ==>
                    var node := k.cfg.nodeOf[claim];
                    Sum(k.cfg.claims, ListedWeight(k.cfg, fleet, node, listed)) +
                      (if node in k.cfg.reserved then k.cfg.reserved[node] else 0) <= k.cfg.hostMemory[node])
    ensures k.lost == old(k.lost) && k.faults == old(k.faults)
  {
    k.Others();
    k.Call(ListClaims(k.id, claim, seatId));
    var listed := k.state.claims;
    k.Others();
    var read := k.state;
    fleet := read;
    k.Call(ListLedgers(k.id));
    fits := FitsListed(k.cfg, read, claim, listed);
    PassesMeans(k.cfg, read, read.joins[k.id]);
  }

  lemma OnlyOnAppend(start: seq<Op>, middle: seq<Op>, end: seq<Op>, claim: Name)
    requires start <= middle <= end && OnlyOn(middle[|start|..], claim) && OnlyOn(end[|middle|..], claim)
    ensures start <= end && OnlyOn(end[|start|..], claim)
  {
    assert end[|start|..] == middle[|start|..] + end[|middle|..];
  }

  /** What a join that has booked does next: verify the seat and keep it exactly if it fits, or release it. */
  method ConfirmJoin(k: Cluster, claim: Name, seat: Seat, readFails: bool) returns (r: Joining, ghost verdict: Option<bool>)
    requires k.Valid() && k.id !in k.state.joins && seat.id in k.state.since
    modifies k
    ensures k.Valid() && old(k.own) <= k.own
    ensures OnlyOn(k.own[|old(k.own)|..], claim)
    ensures readFails ==> r.JoinFailed?
    ensures r.Joined? ==> r.seat == seat && seat.id in k.state.verified && k.state.verified[seat.id].claim == claim
    ensures r.Joined? ==> k.own == old(k.own) + [ListClaims(k.id, claim, seat.id), ListLedgers(k.id)]
    ensures r.NotJoined? ==> claim !in k.state.claims || NoSeatUnder(k.state, claim, seat.workload)
    ensures readFails <==> verdict.None?
    ensures r.Joined? <==> verdict == Some(true)
    ensures k.faults >= old(k.faults) && k.lost >= old(k.lost)
    ensures r.JoinFailed? ==> readFails || k.faults > old(k.faults) || k.lost > old(k.lost)
  {
    verdict := None;
    if !readFails {
      var fits, _ := VerifyJoin(k, claim, seat.id);
      verdict := Some(fits);
      if fits {
        return Joined(seat), verdict;
      }
    }
    var released, _ := ReleaseSeatAndReclaim(k, claim, seat.workload);
    r := if released && !readFails then NotJoined else JoinFailed;
  }

  /** One booking or none, and then operations on the same claim. */
  lemma BookedThen(start: seq<Op>, made: seq<Op>, booked: seq<Op>, end: seq<Op>, claim: Name)
    requires OnlyOn(made, claim) && booked == (if made == [] then start else start + made)
    requires booked <= end && OnlyOn(end[|booked|..], claim)
    ensures start <= end && OnlyOn(end[|start|..], claim)
    ensures booked == start + made
  {
    assert booked == start + made && booked[|start|..] == made;
    OnlyOnAppend(start, booked, end, claim);
  }

  /** Books a seat on a claim that is there already, and confirms it. */
  method BookAndConfirm(k: Cluster, claim: Name, seat: Seat, readFails: bool) returns (r: Joining, ghost verdict: Option<bool>)
    requires k.Valid() && seat.id == k.id && seat.id !in k.state.since && k.id !in k.state.joins
    modifies k
    ensures k.Valid() && old(k.own) <= k.own && OnlyOn(k.own[|old(k.own)|..], claim)
    ensures r.Joined? ==> r.seat.workload == seat.workload && r.seat.uid == seat.uid
    ensures r.Joined? ==> r.seat.id in k.state.verified && k.state.verified[r.seat.id].claim == claim
    ensures r.Joined? ==>
      var lists := [ListClaims(k.id, claim, r.seat.id), ListLedgers(k.id)];
      k.own == old(k.own) + (if r.seat == seat then [Book(claim, seat, false)] else []) + lists
    ensures r.NotJoined? ==> k.own == old(k.own) || claim !in k.state.claims || NoSeatUnder(k.state, claim, seat.workload)
    ensures r.Joined? <==> verdict == Some(true)
    ensures r.NotJoined? && verdict.None? ==>
      k.own == old(k.own) && (Refused(k.state, claim, seat, false) || k.lost == old(k.lost) + 5)
    ensures readFails ==> !r.Joined?
    ensures k.faults >= old(k.faults) && k.lost >= old(k.lost)
    ensures r.JoinFailed? ==> readFails || k.faults > old(k.faults) || k.lost > old(k.lost)
  {
    var booking := EnsureSeat(k, claim, seat, false);
    if !booking.Booked? {
      return if booking.Contended? then NotJoined else JoinFailed, None;
    }
    EveryRunIsDated(k.cfg, k.log);
    ghost var start, made, booked := old(k.own), if booking.seat == seat then [Book(claim, seat, false)] else [], k.own;
    r, verdict := ConfirmJoin(k, claim, booking.seat, readFails);
    BookedThen(start, made, booked, k.own, claim);
  }

  /**
    Joins the claim that selection proposed: book, read the fleet again, and
    keep the seat exactly if the node is not overcommitted. A joined seat is a
    verified one, and a join that declined holds no seat. `verdict` is what the
    verification said, if it came to that.
  */
  method JoinExistingClaim(k: Cluster, target: Option<Name>, current: Name, seat: Seat, readFails: bool)
    returns (r: Joining, ghost verdict: Option<bool>)
    requires k.Valid() && seat.id == k.id && seat.id !in k.state.since
    requires k.id !in k.state.joins
    modifies k
    ensures k.Valid() && old(k.own) <= k.own
    ensures target.None? || target.value == current || readFails ==> !r.Joined?
    ensures if target.None? || target.value == current then k.own == old(k.own)
            else OnlyOn(k.own[|old(k.own)|..], target.value)
    ensures r.Joined? ==> target.Some? && r.seat.workload == seat.workload && r.seat.uid == seat.uid
    ensures r.Joined? ==> r.seat.id in k.state.verified && k.state.verified[r.seat.id].claim == target.value
    ensures r.Joined? ==>
      var lists := [ListClaims(k.id, target.value, r.seat.id), ListLedgers(k.id)];
      k.own == old(k.own) + (if r.seat == seat then [Book(target.value, seat, false)] else []) + lists
    ensures r.NotJoined? ==>
      k.own == old(k.own) ||
      (target.Some? && (target.value !in k.state.claims || NoSeatUnder(k.state, target.value, seat.workload)))
    ensures target.None? || target.value == current ==> r == NotJoined && verdict.None?
    ensures r.Joined? <==> verdict == Some(true)
    ensures r.NotJoined? && verdict.None? && target.Some? && target.value != current ==>
      k.own == old(k.own) && (Refused(k.state, target.value, seat, false) || k.lost == old(k.lost) + 5)
    ensures k.faults >= old(k.faults) && k.lost >= old(k.lost)
    ensures r.JoinFailed? ==> readFails || k.faults > old(k.faults) || k.lost > old(k.lost)
  {
    verdict := None;
    if target.None? || target.value == current {
      return NotJoined, None;
    }
    r, verdict := BookAndConfirm(k, target.value, seat, readFails);
  }

  /** The no-overcommit theorem, at every moment of every call. */
  lemma StateWithinMemory(k: Cluster)
    requires k.Valid()
    ensures forall node :: WithinMemory(k.cfg, k.state, node)
  {
    forall node ensures WithinMemory(k.cfg, k.state, node) {
      VerifiedSeatsFitTheirNode(k.cfg, k.log, node);
    }
  }
}
