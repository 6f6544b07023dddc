/**
  Mutual exclusion read off the steps of a run: who may have memory on the
  devices follows from who used them, was restored to them, parked or left.
*/
module SlicerDevices {
  import opened Wrappers
  import opened TimeSlicer
  import opened SlicerSafety
  import opened SlicerTurns
  import opened SlicerRestores

  /** This step brings the workload onto the devices: it uses them in its turn, or is restored to them. */
  predicate Enters(cfg: Config, w: World, op: Op, n: Name)
  {
    || StartsRestore(cfg, w, op, n)
    || (op == DoUse(n) && PhaseOf(w, n) == Idle && cfg.claimOf(n) in w.m.running && w.m.running[cfg.claimOf(n)] == n)
  }

  /** This step takes it off: parked without a failure, or gone. */
  predicate Exits(cfg: Config, w: World, op: Op, n: Name)
  {
    || (op.DoParked? && op.name == n && PhaseOf(w, n) == Parking && !op.outcome.Failed? && op.outcome != Saved([]))
    || (Leaves(w, op, n) && Step(cfg, w, op) != w)
  }

  function OnAfter(cfg: Config, w: World, op: Op, n: Name, on: bool): bool
  {
    if Enters(cfg, w, op, n) then true else if Exits(cfg, w, op, n) then false else on
  }

  function OnDevices(cfg: Config, w: World, ops: seq<Op>, n: Name, on: bool): bool
    decreases |ops|
  {
    if ops == [] then on else OnDevices(cfg, Step(cfg, w, ops[0]), ops[1..], n, OnAfter(cfg, w, ops[0], n, on))
  }

  lemma ResumeEnters(cfg: Config, w: World, x: Name, n: Name)
    requires Inv(cfg, w)
    ensures n in Step(cfg, w, DoResume(x)).resident <==> OnAfter(cfg, w, DoResume(x), n, n in w.resident)
  {
    ResumeCases(cfg, w, x);
  }

  lemma JoinedResidents(cfg: Config, w: World, x: Name, n: Name)
    requires PhaseOf(w, x) == Idle
    ensures Joined(cfg, w, x).resident == w.resident && (PhaseOf(Joined(cfg, w, x), n) == Restoring <==> PhaseOf(w, n) == Restoring)
  {
  }

  lemma RefusedEnters(cfg: Config, w: World, x: Name, n: Name)
    requires !(PhaseOf(w, x) == Idle && !Granted1(cfg, w, x) && (x in w.m.workloads ==> !w.m.workloads[x].failed))
    ensures Step(cfg, w, DoAcquire(x)).resident == w.resident && !StartsRestore(cfg, w, DoAcquire(x), n)
  {
  }

  lemma AcquireEnters(cfg: Config, w: World, x: Name, n: Name)
    requires Inv(cfg, w)
    ensures n in Step(cfg, w, DoAcquire(x)).resident <==> OnAfter(cfg, w, DoAcquire(x), n, n in w.resident)
  {
    if PhaseOf(w, x) == Idle && !Granted1(cfg, w, x) && (x in w.m.workloads ==> !w.m.workloads[x].failed) {
      JoiningKeeps(cfg, w, x);
      AcquireIsJoinThenResume(cfg, w, x);
      JoinedResidents(cfg, w, x, n);
      ResumeEnters(cfg, Joined(cfg, w, x), x, n);
    } else {
      RefusedEnters(cfg, w, x, n);
    }
  }

  lemma ParkingExits(cfg: Config, w: World, op: Op, n: Name)
    requires op.DoParked?
    ensures n in Step(cfg, w, op).resident <==> OnAfter(cfg, w, op, n, n in w.resident)
  {
  }

  lemma LeavingExits(cfg: Config, w: World, op: Op, n: Name)
    requires op.DoUnregister? || op.DoClose?
    ensures n in Step(cfg, w, op).resident <==> OnAfter(cfg, w, op, n, n in w.resident)
  {
  }

  lemma QuietStepsMoveNobody(cfg: Config, w: World, op: Op, n: Name)
    requires op.DoRegister? || op.DoCancel? || op.DoRestored? || op.DoRelease? || op.DoUse?
    ensures n in Step(cfg, w, op).resident <==> OnAfter(cfg, w, op, n, n in w.resident)
  {
  }

  lemma StepMoves(cfg: Config, w: World, op: Op, n: Name)
    requires Inv(cfg, w)
    ensures n in Step(cfg, w, op).resident <==> OnAfter(cfg, w, op, n, n in w.resident)
  {
    if op.DoResume? {
      ResumeEnters(cfg, w, op.name, n);
    } else if op.DoAcquire? {
      AcquireEnters(cfg, w, op.name, n);
    } else if op.DoParked? {
      ParkingExits(cfg, w, op, n);
    } else if op.DoUnregister? || op.DoClose? {
      LeavingExits(cfg, w, op, n);
    } else {
      QuietStepsMoveNobody(cfg, w, op, n);
    }
  }

  lemma {:induction false} ResidentsAreOnDevices(cfg: Config, w: World, ops: seq<Op>, n: Name)
    requires Inv(cfg, w)
    ensures n in Run(cfg, w, ops).resident <==> OnDevices(cfg, w, ops, n, n in w.resident)
    decreases |ops|
  {
    if ops == [] {
    } else {
      StepKeepsInv(cfg, w, ops[0]);
      StepMoves(cfg, w, ops[0], n);
      ResidentsAreOnDevices(cfg, Step(cfg, w, ops[0]), ops[1..], n);
    }
  }

  /**
    Mutual exclusion: in every run, a workload that used the devices or was
    restored to them, and has neither parked nor left since, holds the grant of
    its claim; and no two such workloads share a claim.
  */
  lemma OneOnDevicesPerClaim(cfg: Config, ops: seq<Op>, a: Name, b: Name)
    requires OnDevices(cfg, START, ops, a, false)
    ensures var m := Run(cfg, START, ops).m; cfg.claimOf(a) in m.running && m.running[cfg.claimOf(a)] == a
    ensures OnDevices(cfg, START, ops, b, false) && cfg.claimOf(b) == cfg.claimOf(a) ==> a == b
  {
    ResidentsAreOnDevices(cfg, START, ops, a);
    ResidentsAreOnDevices(cfg, START, ops, b);
    OneResidentPerClaim(cfg, ops);
  }
}
