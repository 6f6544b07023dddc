/**
  Whose turn it is, in the monitor's own fields; the order in which fifo grants
  turns; and what a checkpoint is good for: the next turn restores it.
*/
module SlicerTurns {
  import opened Wrappers
  import opened TimeSlicer
  import opened SlicerSafety

  // ---------- the next waiter ----------

  /** The i-th in line waits for the claim. */
  ghost predicate WaitsOn(m: Monitor, i: int, claim: Claim)
  {
    0 <= i < |m.waiting| && m.waiting[i] in m.workloads && m.workloads[m.waiting[i]].claim == claim
  }

  /** Where in the line the k-th waiter for the claim stands. */
  lemma {:induction false} PlaceInLine(workloads: map<Name, Workload>, waiting: seq<Name>, claim: Claim, k: nat) returns (i: nat)
    requires k < |WaitersOn(workloads, waiting, claim)|
    ensures i < |waiting| && waiting[i] == WaitersOn(workloads, waiting, claim)[k]
    ensures WaitersOn(workloads, waiting[..i], claim) == WaitersOn(workloads, waiting, claim)[..k]
    ensures waiting[i] in workloads && workloads[waiting[i]].claim == claim
  {
    var here := waiting[0] in workloads && workloads[waiting[0]].claim == claim;
    if here && k == 0 {
      i := 0;
    } else {
      var j := PlaceInLine(workloads, waiting[1..], claim, if here then k - 1 else k);
      i := j + 1;
      assert waiting[..i][0] == waiting[0] && waiting[..i][1..] == waiting[1..][..j];
    }
  }

  lemma NobodyBefore(workloads: map<Name, Workload>, waiting: seq<Name>, claim: Claim, i: nat, j: nat)
    requires j < i <= |waiting| && waiting[j] in workloads && workloads[waiting[j]].claim == claim
    ensures waiting[j] in WaitersOn(workloads, waiting[..i], claim)
  {
    WaitersContents(workloads, waiting[..i], claim);
    assert waiting[..i][j] == waiting[j];
  }

  function LastTurn(m: Monitor, n: Name): nat
  {
    if n in m.lastRelease then m.lastRelease[n] else 0
  }

  /**
    The next waiter of a claim: under fifo the first in line for it; otherwise
    one whose last turn ended no later than that of any other in line for it,
    and strictly earlier than that of any before it.
  */
  lemma NextWaiterMeans(policy: Policy, m: Monitor, claim: Claim) returns (i: int)
    ensures NextWaiter(policy, m, claim).None? <==> forall j :: !WaitsOn(m, j, claim)
    ensures NextWaiter(policy, m, claim).Some? ==>
              && WaitsOn(m, i, claim) && NextWaiter(policy, m, claim) == Some(m.waiting[i])
              && (policy.Fifo? ==> forall j :: j < i ==> !WaitsOn(m, j, claim))
              && (policy.LeastRecentlyServed? ==>
                    forall j :: WaitsOn(m, j, claim) ==>
                      LastTurn(m, m.waiting[i]) <= LastTurn(m, m.waiting[j]) &&
                      (j < i ==> LastTurn(m, m.waiting[i]) < LastTurn(m, m.waiting[j])))
  {
    var line := WaitersOn(m.workloads, m.waiting, claim);
    WaitersContents(m.workloads, m.waiting, claim);
    i := 0;
    if line == [] {
      forall j ensures !WaitsOn(m, j, claim) {
        assert 0 <= j < |m.waiting| ==> m.waiting[j] in m.waiting;
      }
    } else {
      var k := 0;
      if policy.LeastRecentlyServed? {
        k := ChosenIn(line, m.lastRelease);
      }
      i := PlaceInLine(m.workloads, m.waiting, claim, k);
      forall j | WaitsOn(m, j, claim)
        ensures policy.Fifo? ==> j >= i
        ensures policy.LeastRecentlyServed? ==>
                  LastTurn(m, m.waiting[i]) <= LastTurn(m, m.waiting[j]) &&
                  (j < i ==> LastTurn(m, m.waiting[i]) < LastTurn(m, m.waiting[j]))
      {
        assert m.waiting[j] in line;
        if j < i {
          NobodyBefore(m.workloads, m.waiting, claim, i, j);
          var p :| 0 <= p < k && line[..k][p] == m.waiting[j];
          assert line[p] == m.waiting[j];
        }
      }
    }
  }

  lemma ChosenIn(line: seq<Name>, lastRelease: map<Name, nat>) returns (k: nat)
    requires line != []
    ensures k < |line| && line[k] == (if |line| == 1 then line[0] else LeastServed(line, lastRelease))
    ensures forall n :: n in line ==> Last(lastRelease, line[k]) <= Last(lastRelease, n)
    ensures forall p :: 0 <= p < k ==> Last(lastRelease, line[k]) < Last(lastRelease, line[p])
  {
    k := LeastServedIsEarliest(line, lastRelease);
  }

  // ---------- fifo ----------

  predicate Before(line: seq<Name>, a: Name, b: Name)
  {
    line != [] && if line[0] == a then b in line[1..] else line[0] != b && Before(line[1..], a, b)
  }

  lemma {:induction false} PlacesOf(line: seq<Name>, a: Name, b: Name) returns (i: nat, j: nat)
    requires Before(line, a, b)
    ensures i < j < |line| && line[i] == a && line[j] == b
  {
    if line[0] == a {
      i := 0;
      var k :| 0 <= k < |line[1..]| && line[1..][k] == b;
      j := k + 1;
    } else {
      i, j := PlacesOf(line[1..], a, b);
      i, j := i + 1, j + 1;
    }
  }

  lemma {:induction false} StillBefore(line: seq<Name>, gone: set<Name>, a: Name, b: Name)
    requires Before(line, a, b) && a !in gone && b !in gone && a != b
    ensures Before(Outside(line, gone), a, b)
  {
    OutsideContents(line[1..], gone);
    if line[0] == a {
      assert ([a] + Outside(line[1..], gone))[1..] == Outside(line[1..], gone);
    } else {
      StillBefore(line[1..], gone, a, b);
      assert [] + Outside(line[1..], gone) == Outside(line[1..], gone);
      assert ([line[0]] + Outside(line[1..], gone))[1..] == Outside(line[1..], gone);
    }
  }

  lemma {:induction false} RemoveIsOutside(line: seq<Name>, n: Name)
    requires NoDup(line)
    ensures Remove(line, n) == Outside(line, {n})
  {
    if line == [] {
    } else if line[0] == n {
      assert n !in line[1..];
      NotThere(line[1..], n);
      assert [] + Outside(line[1..], {n}) == Outside(line[1..], {n});
    } else {
      RemoveIsOutside(line[1..], n);
    }
  }

  lemma {:induction false} NotThere(line: seq<Name>, n: Name)
    requires n !in line
    ensures Outside(line, {n}) == line
  {
    if line == [] {
    } else {
      NotThere(line[1..], n);
      assert line == [line[0]] + line[1..];
    }
  }

  lemma {:induction false} BehindEveryone(line: seq<Name>, a: Name, b: Name)
    requires a in line && b !in line
    ensures Before(line + [b], a, b)
  {
    assert (line + [b])[1..] == line[1..] + [b];
    if line[0] == a {
    } else {
      BehindEveryone(line[1..], a, b);
    }
  }

  /** The first waits, and the second neither holds the claim nor stands before it. */
  ghost predicate Behind(cfg: Config, w: World, a: Name, b: Name)
  {
    a in w.m.waiting && !Holds(w.m, b, cfg.claimOf(b)) && (b in w.m.waiting ==> Before(w.m.waiting, a, b))
  }

  /** Whoever is behind a waiter of the claim is not next for it. */
  lemma NotNext(cfg: Config, m: Monitor, a: Name, b: Name)
    requires cfg.policy.Fifo? && a != b && cfg.claimOf(a) == cfg.claimOf(b) && Before(m.waiting, a, b) && NoDup(m.waiting)
    requires a in m.workloads && m.workloads[a].claim == cfg.claimOf(a)
    ensures NextWaiter(cfg.policy, m, cfg.claimOf(b)) != Some(b)
  {
    var i := NextWaiterMeans(cfg.policy, m, cfg.claimOf(b));
    var p, q := PlacesOf(m.waiting, a, b);
    assert WaitsOn(m, p, cfg.claimOf(b));
    if NextWaiter(cfg.policy, m, cfg.claimOf(b)) == Some(b) {
      OnePlace(m.waiting, i, q);
    }
  }

  lemma OnePlace(line: seq<Name>, i: int, j: int)
    requires NoDup(line) && 0 <= i < |line| && 0 <= j < |line| && line[i] == line[j]
    ensures i == j
  {
  }

  lemma BehindAfterLeaving(cfg: Config, w: World, m: Monitor, gone: set<Name>, a: Name, b: Name)
    requires Behind(cfg, w, a, b) && a != b && NoDup(w.m.waiting)
    requires m.waiting == Outside(w.m.waiting, gone) && a !in gone
    requires forall c :: c in m.running ==> c in w.m.running && m.running[c] == w.m.running[c]
    ensures a in m.waiting && !Holds(m, b, cfg.claimOf(b)) && (b in m.waiting ==> Before(m.waiting, a, b))
  {
    OutsideContents(w.m.waiting, gone);
    if b in m.waiting {
      StillBefore(w.m.waiting, gone, a, b);
    }
  }

  lemma BehindAfterGrant(cfg: Config, w: World, n: Name, a: Name, b: Name)
    requires Inv(cfg, w) && Behind(cfg, w, a, b) && a != b && n != a && n != b && n in w.m.workloads
    ensures Behind(cfg, GrantOf(cfg, w, n), a, b)
  {
    RemoveIsOutside(w.m.waiting, n);
    OutsideContents(w.m.waiting, {n});
    if b in w.m.waiting {
      StillBefore(w.m.waiting, {n}, a, b);
    }
  }

  lemma RefusalKeepsBehind(cfg: Config, w: World, n: Name, a: Name, b: Name)
    requires NoDup(w.m.waiting) && Behind(cfg, w, a, b) && a != b && n !in w.m.waiting
    ensures Behind(cfg, Answered(cfg, w, n, Clear(w.m, n), Refused), a, b)
  {
    RemoveIsOutside(w.m.waiting, n);
    NotThere(w.m.waiting, n);
  }

  lemma GrantKeepsBehind(cfg: Config, w: World, n: Name, a: Name, b: Name)
    requires cfg.policy.Fifo? && Inv(cfg, w) && Behind(cfg, w, a, b) && a != b && cfg.claimOf(a) == cfg.claimOf(b)
    requires MayGrant(cfg, w, n) && NextWaiter(cfg.policy, w.m, cfg.claimOf(n)) == Some(n) && a in GrantOf(cfg, w, n).m.waiting
    ensures Behind(cfg, GrantOf(cfg, w, n), a, b)
  {
    RemoveContents(w.m.waiting, n);
    if n == b {
      NotNext(cfg, w.m, a, b);
    } else {
      BehindAfterGrant(cfg, w, n, a, b);
    }
  }

  /** A woken waiter waits on, is refused, or takes the grant. */
  lemma ResumeCases(cfg: Config, w: World, n: Name)
    requires Inv(cfg, w)
    ensures var z := Step(cfg, w, DoResume(n));
            || z.m == w.m
            || (n !in w.m.waiting && z == Answered(cfg, w, n, Clear(w.m, n), Refused))
            || (MayGrant(cfg, w, n) && NextWaiter(cfg.policy, w.m, cfg.claimOf(n)) == Some(n) && z == GrantOf(cfg, w, n))
  {
  }

  lemma ResumeKeepsBehind(cfg: Config, w: World, n: Name, a: Name, b: Name)
    requires cfg.policy.Fifo? && Inv(cfg, w) && Behind(cfg, w, a, b) && a != b && cfg.claimOf(a) == cfg.claimOf(b)
    requires a in Step(cfg, w, DoResume(n)).m.waiting
    ensures Behind(cfg, Step(cfg, w, DoResume(n)), a, b)
  {
    ResumeCases(cfg, w, n);
    if Step(cfg, w, DoResume(n)).m == w.m {
    } else if n !in w.m.waiting {
      RefusalKeepsBehind(cfg, w, n, a, b);
    } else {
      GrantKeepsBehind(cfg, w, n, a, b);
    }
  }

  lemma AcquireKeepsBehind(cfg: Config, w: World, n: Name, a: Name, b: Name)
    requires cfg.policy.Fifo? && Inv(cfg, w) && Behind(cfg, w, a, b) && a != b && cfg.claimOf(a) == cfg.claimOf(b)
    requires a in Step(cfg, w, DoAcquire(n)).m.waiting
    ensures Behind(cfg, Step(cfg, w, DoAcquire(n)), a, b)
  {
    if PhaseOf(w, n) == Idle && !Granted1(cfg, w, n) && (n in w.m.workloads ==> !w.m.workloads[n].failed) {
      JoiningKeeps(cfg, w, n);
      AcquireIsJoinThenResume(cfg, w, n);
      JoinedBehind(cfg, w, n, a, b);
      ResumeKeepsBehind(cfg, Joined(cfg, w, n), n, a, b);
    }
  }

  lemma JoinedBehind(cfg: Config, w: World, n: Name, a: Name, b: Name)
    requires Inv(cfg, w) && Behind(cfg, w, a, b) && a != b && PhaseOf(w, n) == Idle
    ensures Behind(cfg, Joined(cfg, w, n), a, b)
  {
    assert n !in w.m.waiting;
    if n == b {
      BehindEveryone(w.m.waiting, a, b);
    } else if b in w.m.waiting {
      BeforeInLonger(w.m.waiting, n, a, b);
    }
  }

  lemma {:induction false} BeforeInLonger(line: seq<Name>, n: Name, a: Name, b: Name)
    requires Before(line, a, b)
    ensures Before(line + [n], a, b)
  {
    assert (line + [n])[1..] == line[1..] + [n];
    if line[0] == a {
    } else {
      BeforeInLonger(line[1..], n, a, b);
    }
  }

  /** The name left the line, and kept or gave up its grants; or nothing happened to either. */
  ghost predicate Left(m: Monitor, z: Monitor, n: Name)
  {
    || (z.waiting == m.waiting && z.running == m.running)
    || (z.waiting == Remove(m.waiting, n) && (z.running == m.running || z.running == Clear(m, n).running))
  }

  lemma CancelLeaves(cfg: Config, w: World, n: Name)
    ensures Left(w.m, Step(cfg, w, DoCancel(n)).m, n) && Left(w.m, Step(cfg, w, DoUnregister(n)).m, n)
  {
  }

  lemma ParkedLeaves(m: Monitor, n: Name, checkpointed: bool, now: nat)
    ensures Left(m, Parked(m, n, checkpointed, now), n) && Left(m, Faulted(m, n), n)
  {
  }

  lemma ParkingLeaves(cfg: Config, w: World, op: Op)
    requires op.DoParked?
    ensures Left(w.m, Step(cfg, w, op).m, op.name)
  {
    ParkedLeaves(w.m, op.name, op.outcome.Saved?, op.now);
  }

  lemma LeavingKeepsBehind(cfg: Config, w: World, op: Op, a: Name, b: Name)
    requires op.DoCancel? || op.DoParked? || op.DoUnregister?
    requires NoDup(w.m.waiting) && Behind(cfg, w, a, b) && a != b && a in Step(cfg, w, op).m.waiting
    ensures Behind(cfg, Step(cfg, w, op), a, b)
  {
    var m := Step(cfg, w, op).m;
    if op.DoParked? {
      ParkingLeaves(cfg, w, op);
    } else {
      CancelLeaves(cfg, w, op.name);
    }
    if m.waiting == w.m.waiting {
    } else {
      RemoveContents(w.m.waiting, op.name);
      RemoveIsOutside(w.m.waiting, op.name);
      BehindAfterLeaving(cfg, w, m, {op.name}, a, b);
    }
  }

  lemma CloseKeepsBehind(cfg: Config, w: World, closing: nat, a: Name, b: Name)
    requires Inv(cfg, w) && Behind(cfg, w, a, b) && a != b && a in Step(cfg, w, DoClose(closing)).m.waiting
    ensures Behind(cfg, Step(cfg, w, DoClose(closing)), a, b)
  {
    var m := Step(cfg, w, DoClose(closing)).m;
    OutsideContents(w.m.waiting, On(w.m, closing));
    if m != w.m {
      BehindAfterLeaving(cfg, w, m, On(w.m, closing), a, b);
    }
  }

  lemma StepKeepsBehind(cfg: Config, w: World, op: Op, a: Name, b: Name)
    requires cfg.policy.Fifo? && Inv(cfg, w) && Behind(cfg, w, a, b) && a != b && cfg.claimOf(a) == cfg.claimOf(b)
    requires a in Step(cfg, w, op).m.waiting
    ensures Behind(cfg, Step(cfg, w, op), a, b)
  {
    if op.DoResume? {
      ResumeKeepsBehind(cfg, w, op.name, a, b);
    } else if op.DoAcquire? {
      AcquireKeepsBehind(cfg, w, op.name, a, b);
    } else if op.DoClose? {
      CloseKeepsBehind(cfg, w, op.closing, a, b);
    } else if op.DoCancel? || op.DoParked? || op.DoUnregister? {
      LeavingKeepsBehind(cfg, w, op, a, b);
    }
  }

  predicate WaitsThroughout(cfg: Config, w: World, ops: seq<Op>, a: Name)
    decreases |ops|
  {
    a in w.m.waiting && (ops == [] || WaitsThroughout(cfg, Step(cfg, w, ops[0]), ops[1..], a))
  }

  lemma {:induction false} RunKeepsBehind(cfg: Config, w: World, ops: seq<Op>, a: Name, b: Name)
    requires cfg.policy.Fifo? && Inv(cfg, w) && Behind(cfg, w, a, b) && a != b && cfg.claimOf(a) == cfg.claimOf(b)
    requires WaitsThroughout(cfg, w, ops, a)
    ensures Behind(cfg, Run(cfg, w, ops), a, b)
    decreases |ops|
  {
    if ops == [] {
    } else {
      StepKeepsInv(cfg, w, ops[0]);
      StepKeepsBehind(cfg, w, ops[0], a, b);
      RunKeepsBehind(cfg, Step(cfg, w, ops[0]), ops[1..], a, b);
    }
  }

  /**
    Under fifo a claim is granted in the order in which its waiters joined: for as
    long as a waiter waits, nobody who joined the line after it, or has not
    joined it yet, is granted the claim.
  */
  lemma FifoGrantsInOrder(cfg: Config, before: seq<Op>, ops: seq<Op>, a: Name, b: Name)
    requires cfg.policy.Fifo? && a != b && cfg.claimOf(a) == cfg.claimOf(b)
    requires var w := Run(cfg, START, before);
             !Holds(w.m, b, cfg.claimOf(b)) && (b in w.m.waiting ==> Before(w.m.waiting, a, b)) && WaitsThroughout(cfg, w, ops, a)
    ensures !Holds(Run(cfg, Run(cfg, START, before), ops).m, b, cfg.claimOf(b))
  {
    EveryRunKeepsInv(cfg, START, before);
    RunKeepsBehind(cfg, Run(cfg, START, before), ops, a, b);
  }

  // ---------- checkpoints are restored ----------

  /** The workload is parked: marked, its processes recorded, off its claim. */
  ghost predicate IsParked(cfg: Config, w: World, n: Name)
  {
    && n in w.m.workloads && w.m.workloads[n].checkpointed && !Holds(w.m, n, cfg.claimOf(n))
    && HasPids(w, n) && n in w.unrestored && !Busy(w, n)
  }

  /** The operation takes the workload away: unregistered, or its connection closed. */
  predicate Leaves(w: World, op: Op, n: Name)
  {
    op == DoUnregister(n) || (op.DoClose? && n in On(w.m, op.closing))
  }

  lemma ParkingParks(cfg: Config, w: World, n: Name, pids: seq<nat>, now: nat)
    requires Inv(cfg, w) && PhaseOf(w, n) == Parking && pids != []
    ensures IsParked(cfg, Step(cfg, w, DoParked(n, Saved(pids), now)), n)
    ensures Step(cfg, w, DoParked(n, Saved(pids), now)).pids[n] == pids
  {
  }

  /** What a step does to a parked workload that stays: nothing, or it grants the claim and restores. */
  ghost predicate ParkedOrRestoring(cfg: Config, w: World, n: Name)
  {
    if Holds(w.m, n, cfg.claimOf(n)) then PhaseOf(w, n) == Restoring && n !in w.unrestored else IsParked(cfg, w, n)
  }

  lemma ResumeRestores(cfg: Config, w: World, x: Name, n: Name)
    requires Inv(cfg, w) && IsParked(cfg, w, n)
    ensures ParkedOrRestoring(cfg, Step(cfg, w, DoResume(x)), n)
  {
    assert PhaseOf(w, x).Waiting? ==> x in w.m.waiting || !Holds(w.m, x, cfg.claimOf(x));
  }

  lemma AcquireRestores(cfg: Config, w: World, x: Name, n: Name)
    requires Inv(cfg, w) && IsParked(cfg, w, n)
    ensures ParkedOrRestoring(cfg, Step(cfg, w, DoAcquire(x)), n)
  {
    if PhaseOf(w, x) == Idle && !Granted1(cfg, w, x) && (x in w.m.workloads ==> !w.m.workloads[x].failed) {
      JoiningKeeps(cfg, w, x);
      AcquireIsJoinThenResume(cfg, w, x);
      assert IsParked(cfg, Joined(cfg, w, x), n);
      ResumeRestores(cfg, Joined(cfg, w, x), x, n);
    }
  }

  lemma ParkingKeepsParked(cfg: Config, w: World, op: Op, n: Name)
    requires Inv(cfg, w) && IsParked(cfg, w, n) && op.DoParked?
    ensures IsParked(cfg, Step(cfg, w, op), n)
  {
    assert PhaseOf(w, op.name) == Parking ==> op.name != n;
  }

  lemma LeavingKeepsParked(cfg: Config, w: World, op: Op, n: Name)
    requires IsParked(cfg, w, n) && !Leaves(w, op, n) && (op.DoUnregister? || op.DoClose?)
    ensures IsParked(cfg, Step(cfg, w, op), n)
  {
  }

  lemma QuietStepsKeepParked(cfg: Config, w: World, op: Op, n: Name)
    requires IsParked(cfg, w, n) && (op.DoRegister? || op.DoCancel? || op.DoRestored? || op.DoRelease? || op.DoUse?)
    ensures IsParked(cfg, Step(cfg, w, op), n)
  {
  }

  lemma StepRestores(cfg: Config, w: World, op: Op, n: Name)
    requires Inv(cfg, w) && IsParked(cfg, w, n) && !Leaves(w, op, n)
    ensures ParkedOrRestoring(cfg, Step(cfg, w, op), n)
  {
    if op.DoResume? {
      ResumeRestores(cfg, w, op.name, n);
    } else if op.DoAcquire? {
      AcquireRestores(cfg, w, op.name, n);
    } else if op.DoParked? {
      ParkingKeepsParked(cfg, w, op, n);
    } else if op.DoUnregister? || op.DoClose? {
      LeavingKeepsParked(cfg, w, op, n);
    } else {
      QuietStepsKeepParked(cfg, w, op, n);
    }
  }

  /** The workload stays, and has no turn before the end. */
  predicate StaysWithoutTurn(cfg: Config, w: World, ops: seq<Op>, n: Name)
    decreases |ops|
  {
    !Holds(w.m, n, cfg.claimOf(n)) &&
    (ops == [] || (!Leaves(w, ops[0], n) && StaysWithoutTurn(cfg, Step(cfg, w, ops[0]), ops[1..], n)))
  }

  lemma {:induction false} StaysParked(cfg: Config, w: World, ops: seq<Op>, n: Name)
    requires Inv(cfg, w) && IsParked(cfg, w, n) && StaysWithoutTurn(cfg, w, ops, n)
    ensures IsParked(cfg, Run(cfg, w, ops), n)
    decreases |ops|
  {
    if ops == [] {
    } else {
      StepKeepsInv(cfg, w, ops[0]);
      StepRestores(cfg, w, ops[0], n);
      StaysParked(cfg, Step(cfg, w, ops[0]), ops[1..], n);
    }
  }

  lemma NextTurnFrom(cfg: Config, w: World, n: Name, ops: seq<Op>, last: Op)
    requires Inv(cfg, w) && IsParked(cfg, w, n) && StaysWithoutTurn(cfg, w, ops, n)
    requires !Leaves(Run(cfg, w, ops), last, n) && Holds(Step(cfg, Run(cfg, w, ops), last).m, n, cfg.claimOf(n))
    ensures var z := Step(cfg, Run(cfg, w, ops), last); PhaseOf(z, n) == Restoring && n !in z.unrestored
  {
    StaysParked(cfg, w, ops, n);
    EveryRunKeepsInv(cfg, w, ops);
    StepRestores(cfg, Run(cfg, w, ops), last, n);
  }

  /**
    A saved checkpoint is restored at the next turn: after a release that saved
    processes, whatever happens until the workload's next grant, unless it
    unregisters or disconnects, that grant puts it into restoring.
  */
  lemma NextTurnRestores(cfg: Config, before: seq<Op>, n: Name, pids: seq<nat>, now: nat, ops: seq<Op>, last: Op)
    requires PhaseOf(Run(cfg, START, before), n) == Parking && pids != []
    requires var w := Step(cfg, Run(cfg, START, before), DoParked(n, Saved(pids), now));
             StaysWithoutTurn(cfg, w, ops, n) && !Leaves(Run(cfg, w, ops), last, n) &&
             Holds(Step(cfg, Run(cfg, w, ops), last).m, n, cfg.claimOf(n))
    ensures var w := Step(cfg, Run(cfg, START, before), DoParked(n, Saved(pids), now));
            var z := Step(cfg, Run(cfg, w, ops), last);
            PhaseOf(z, n) == Restoring && n !in z.unrestored
  {
    var v := Run(cfg, START, before);
    EveryRunKeepsInv(cfg, START, before);
    ParkingParks(cfg, v, n, pids, now);
    StepKeepsInv(cfg, v, DoParked(n, Saved(pids), now));
    NextTurnFrom(cfg, Step(cfg, v, DoParked(n, Saved(pids), now)), n, ops, last);
  }
}
