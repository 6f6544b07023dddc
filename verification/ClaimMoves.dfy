/**
  The moves built from booking, joining and releasing: cutting a dedicated
  claim, and moving a worker whose dedicated claim the cluster cannot satisfy
  onto a shared one.
*/
module ClaimMoves {
  import opened Wrappers
  import opened ClaimLedger
  import opened JoinProtocol
  import opened Reconciler

  datatype Cutting =
    | Cut(seat: Seat)
    | NoTier
    | ClaimTerminating
    | CuttingFailed

  /** What the consistent read of the worker's own claim says, besides whether it exists. */
  datatype OwnClaim = Readable | Terminating | Unreadable

  /** The founding seat, booked or adopted. Without one nothing was written. */
  method BookFounding(k: Cluster, claim: Name, seat: Seat) returns (r: Option<Seat>)
    requires k.Valid() && seat.id == k.id && seat.id !in k.state.since
    modifies k
    ensures k.Valid() && k.faults >= old(k.faults) && k.lost >= old(k.lost)
    ensures r.Some? ==> r.value.workload == seat.workload && r.value.uid == seat.uid
    ensures r.Some? ==> k.own == old(k.own) + if r.value == seat then [Book(claim, seat, true)] else []
    ensures r.None? ==> k.own == old(k.own)
    ensures r.None? ==> k.faults > old(k.faults) || k.lost > old(k.lost) || Refused(k.state, claim, seat, true)
  {
    var booking := EnsureSeat(k, claim, seat, true);
    return if booking.Booked? then Some(booking.seat) else None;
  }

  /** The claim, created unless the call fails or somebody else's is there by now. */
  method CreateOwnClaim(k: Cluster, claim: Name) returns (created: bool)
    requires k.Valid()
    modifies k
    ensures k.Valid() && k.faults >= old(k.faults) && k.lost == old(k.lost)
    ensures k.own == old(k.own) + if created then [CreateClaim(claim)] else []
    ensures claim in k.state.claims || (!created && k.faults > old(k.faults))
  {
    k.Others();
    var failed := k.Fails();
    if failed || claim in k.state.claims {
      return false;
    }
    k.Call(CreateClaim(claim));
    return true;
  }

  /**
    Books the founding seat, and only then creates the claim unless it was
    already there. Nothing is written when there is no tier to ask for, or
    while the previous claim is still being deleted.
  */
  method CutDedicatedClaim(k: Cluster, claim: Name, seat: Seat, hasTiers: bool, status: OwnClaim) returns (r: Cutting)
    requires k.Valid() && seat.id == k.id && seat.id !in k.state.since
    modifies k
    ensures k.Valid()
    ensures r.NoTier? <==> !hasTiers
    ensures r.ClaimTerminating? <==> hasTiers && status.Terminating?
    ensures r.NoTier? || r.ClaimTerminating? || status.Unreadable? ==> k.own == old(k.own)
    ensures r.Cut? ==> r.seat.workload == seat.workload && r.seat.uid == seat.uid
    ensures r.Cut? ==>
              var read := if old(k.schedule) == [] then old(k.state) else Run(k.cfg, old(k.state), old(k.schedule)[0]);
              var booked := if r.seat == seat then [Book(claim, seat, true)] else [];
              if claim in read.claims then k.own == old(k.own) + booked
              else k.own == old(k.own) + booked + [CreateClaim(claim)] && claim in k.state.claims
    ensures !r.Cut? ==> k.own == old(k.own) || k.own == old(k.own) + [Book(claim, seat, true)]
    ensures r.CuttingFailed? && !status.Unreadable? ==>
              k.faults > old(k.faults) || k.lost > old(k.lost) || Refused(k.state, claim, seat, true) || claim in k.state.claims
  {
    if !hasTiers {
      return NoTier;
    }
    k.Others();
    match status {
      case Terminating => return ClaimTerminating;
      case Unreadable => return CuttingFailed;
      case Readable =>
    }
    var found := claim in k.state.claims;
    var booked := BookFounding(k, claim, seat);
    if booked.None? {
      return CuttingFailed;
    }
    if found {
      return Cut(booked.value);
    }
    var created := CreateOwnClaim(k, claim);
    return if created then Cut(booked.value) else CuttingFailed;
  }

  // ---------- falling back to sharing ----------

  datatype Move =
    | Stay
    | Moved(seat: Seat)
    | MoveFailed

  lemma StepKeepsVerdicts(cfg: Config, s: State, op: Op)
    ensures s.verified.Keys <= Step(cfg, s, op).verified.Keys
  {
  }

  lemma {:induction false} VerdictsStay(cfg: Config, s: State, ops: seq<Op>)
    ensures s.verified.Keys <= Run(cfg, s, ops).verified.Keys
    decreases |ops|
  {
    if ops == [] {
    } else {
      StepKeepsVerdicts(cfg, s, ops[0]);
      VerdictsStay(cfg, Step(cfg, s, ops[0]), ops[1..]);
    }
  }

  lemma LongerLogKeepsVerdicts(cfg: Config, a: seq<Op>, b: seq<Op>)
    requires a <= b
    ensures Run(cfg, INIT, a).verified.Keys <= Run(cfg, INIT, b).verified.Keys
  {
    assert b == a + b[|a|..];
    RunAppend(cfg, INIT, a, b[|a|..]);
    VerdictsStay(cfg, Run(cfg, INIT, a), b[|a|..]);
  }

  predicate GivesUpAt(op: Op, claim: Name, workload: string)
  {
    op == Vacate(claim, workload) || op == Retire(claim, workload)
  }

  /** Wherever these operations give up the worker's seat on the claim, the join's second list came before. */
  predicate JoinedBefore(ops: seq<Op>, claim: Name, workload: string, ticket: nat)
  {
    forall i :: 0 <= i < |ops| && GivesUpAt(ops[i], claim, workload) ==> ListLedgers(ticket) in ops[..i]
  }

  /** One of these operations gives up the worker's seat on the claim. */
  predicate GivesUp(ops: seq<Op>, claim: Name, workload: string)
  {
    exists i :: 0 <= i < |ops| && GivesUpAt(ops[i], claim, workload)
  }

  /** Operations on another claim first, with the second list among them, then the giving up. */
  lemma JoinThenGiveUp(join: seq<Op>, rest: seq<Op>, target: Name, own: Name, workload: string, ticket: nat)
    requires OnlyOn(join, target) && target != own && ListLedgers(ticket) in join
    ensures JoinedBefore(join + rest, own, workload, ticket)
  {
    var ops := join + rest;
    assert forall i :: 0 <= i < |join| ==> ops[i] == join[i];
    forall i | 0 <= i < |ops| && GivesUpAt(ops[i], own, workload) ensures ListLedgers(ticket) in ops[..i] {
      var j :| 0 <= j < |join| && join[j] == ListLedgers(ticket);
      assert ops[..i][j] == ops[j] == join[j];
    }
  }

  lemma OnlyOnGivesNothingUp(ops: seq<Op>, target: Name, own: Name, workload: string, ticket: nat)
    requires OnlyOn(ops, target) && target != own
    ensures !GivesUp(ops, own, workload) && JoinedBefore(ops, own, workload, ticket)
  {
  }

  /** With a verified seat elsewhere, gives up the own one. `start` is what was written before the move. */
  method MoveOver(k: Cluster, own: Name, target: Name, held: Seat, ghost start: seq<Op>) returns (r: Move)
    requires k.Valid() && held.id in k.state.verified && target != own
    requires start <= k.own && OnlyOn(k.own[|start|..], target) && ListLedgers(k.id) in k.own[|start|..]
    modifies k
    ensures k.Valid() && held.id in k.state.verified && start <= k.own
    ensures JoinedBefore(k.own[|start|..], own, held.workload, k.id)
    ensures r == Moved(held) || r == MoveFailed
    ensures r.Moved? ==> own !in k.state.claims || NoSeatUnder(k.state, own, held.workload)
    ensures r.MoveFailed? ==> k.faults > old(k.faults) || k.lost > old(k.lost)
  {
    ghost var log, before := k.log, k.own;
    var released, _ := ReleaseSeatAndReclaim(k, own, held.workload);
    LongerLogKeepsVerdicts(k.cfg, log, k.log);
    assert k.own[|start|..] == before[|start|..] + k.own[|before|..];
    JoinThenGiveUp(before[|start|..], k.own[|before|..], target, own, held.workload, k.id);
    return if released then Moved(held) else MoveFailed;
  }

  /** The speculative seat goes back. */
  method GiveBack(k: Cluster, target: Name, workload: string, ghost start: seq<Op>) returns (r: Move)
    requires k.Valid() && start <= k.own && OnlyOn(k.own[|start|..], target)
    modifies k
    ensures k.Valid() && start <= k.own && OnlyOn(k.own[|start|..], target)
    ensures r == Stay || r == MoveFailed
    ensures r.Stay? ==> target !in k.state.claims || NoSeatUnder(k.state, target, workload)
    ensures r.MoveFailed? ==> k.faults > old(k.faults) || k.lost > old(k.lost)
  {
    ghost var before := k.own;
    var released, _ := ReleaseSeatAndReclaim(k, target, workload);
    assert k.own[|start|..] == before[|start|..] + k.own[|before|..];
    return if released then Stay else MoveFailed;
  }

  /** The last call of a join that kept its seat. */
  lemma ListsEndTheJoin(own: seq<Op>, start: seq<Op>, booked: seq<Op>, first: Op, last: Op)
    requires own == start + booked + [first, last]
    ensures start <= own && last in own[|start|..]
  {
    assert own[|start|..] == booked + [first, last];
    assert [first, last][1] == last;
  }

  /**
    A worker whose own claim is not satisfied and whose pod the cluster refused
    joins another claim. Its own seat is given up only after the other one is
    verified, even when the move then fails; if the own claim was allocated
    meanwhile, the other seat goes back.
  */
  method FallBackToSharing(k: Cluster, own: Name, satisfied: bool, refused: bool, target: Option<Name>, seat: Seat,
                           readFails: bool, allocatedMeanwhile: bool, patchFails: bool)
    returns (r: Move, ghost held: Option<Seat>, ghost join: Joining)
    requires k.Valid() && seat.id == k.id && seat.id !in k.state.since && k.id !in k.state.joins
    modifies k
    ensures k.Valid() && old(k.own) <= k.own && forall node :: WithinMemory(k.cfg, k.state, node)
    ensures own == "" || satisfied || !refused ==> r == Stay && k.own == old(k.own) && join.NotJoined?
    ensures own != "" && !satisfied && refused && join.NotJoined? ==> r.Stay?
    ensures join.JoinFailed? ==> r.MoveFailed?
    ensures join.Joined? && allocatedMeanwhile && r.Stay? ==>
              target.Some? && (target.value !in k.state.claims || NoSeatUnder(k.state, target.value, seat.workload))
    ensures join.Joined? && !allocatedMeanwhile && patchFails ==> r.MoveFailed? && held.None?
    ensures join.Joined? && !allocatedMeanwhile && !patchFails ==> !r.Stay? && held == Some(join.seat)
    ensures join.Joined? && allocatedMeanwhile ==> !r.Moved? && held.None?
    ensures join.Joined? && r.MoveFailed? ==> k.faults > old(k.faults) || k.lost > old(k.lost) || (patchFails && !allocatedMeanwhile)
    ensures r.Moved? ==> held == Some(r.seat) && (own !in k.state.claims || NoSeatUnder(k.state, own, seat.workload))
    ensures held.Some? ==> held.value.workload == seat.workload && held.value.uid == seat.uid && held.value.id in k.state.verified
    ensures GivesUp(k.own[|old(k.own)|..], own, seat.workload) ==> held.Some?
    ensures JoinedBefore(k.own[|old(k.own)|..], own, seat.workload, k.id)
    ensures r.Stay? ==> !GivesUp(k.own[|old(k.own)|..], own, seat.workload)
  {
    held, join := None, NotJoined;
    StateWithinMemory(k);
    if own == "" || satisfied || !refused {
      r := Stay;
      return;
    }
    ghost var start := k.own;
    var joined, _ := JoinExistingClaim(k, target, own, seat, readFails);
    join := joined;
    StateWithinMemory(k);
    if target.Some? && target.value != own {
      OnlyOnGivesNothingUp(k.own[|start|..], target.value, own, seat.workload, k.id);
    }
    if !joined.Joined? {
      r := if joined.NotJoined? then Stay else MoveFailed;
      return;
    }
    if allocatedMeanwhile {
      r := GiveBack(k, target.value, seat.workload, start);
      StateWithinMemory(k);
      OnlyOnGivesNothingUp(k.own[|start|..], target.value, own, seat.workload, k.id);
      return;
    }
    if patchFails {
      r := MoveFailed;
      return;
    }
    held := Some(joined.seat);
    ListsEndTheJoin(k.own, start, if joined.seat == seat then [Book(target.value, seat, false)] else [],
                    ListClaims(k.id, target.value, joined.seat.id), ListLedgers(k.id));
    r := MoveOver(k, own, target.value, joined.seat, start);
    StateWithinMemory(k);
  }
}
