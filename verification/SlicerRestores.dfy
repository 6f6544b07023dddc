/**
  Restores and checkpoints pair up: read off the steps of a run alone, every
  restore is owed by the latest checkpoint that saved processes and that no
  restore has answered yet, and it is for exactly those processes.
*/
module SlicerRestores {
  import opened Wrappers
  import opened TimeSlicer
  import opened SlicerSafety
  import opened SlicerTurns

  /** This step saves processes of the workload. */
  predicate Saves(w: World, op: Op, n: Name)
  {
    op.DoParked? && op.name == n && PhaseOf(w, n) == Parking && op.outcome.Saved? && op.outcome.pids != []
  }

  /** This step starts a restore of the workload. */
  predicate StartsRestore(cfg: Config, w: World, op: Op, n: Name)
  {
    PhaseOf(w, n) != Restoring && PhaseOf(Step(cfg, w, op), n) == Restoring
  }

  function OwedAfter(cfg: Config, w: World, op: Op, n: Name, owed: Option<seq<nat>>): Option<seq<nat>>
  {
    if Saves(w, op, n) then Some(op.outcome.pids) else if StartsRestore(cfg, w, op, n) then None else owed
  }

  /** The processes that the latest saving checkpoint saved, if no restore has been started since. */
  function Owed(cfg: Config, w: World, ops: seq<Op>, n: Name, owed: Option<seq<nat>>): Option<seq<nat>>
    decreases |ops|
  {
    if ops == [] then owed else Owed(cfg, Step(cfg, w, ops[0]), ops[1..], n, OwedAfter(cfg, w, ops[0], n, owed))
  }

  /** The restorer's record agrees with what is owed. */
  ghost predicate Agrees(w: World, n: Name, owed: Option<seq<nat>>)
  {
    (n in w.unrestored <==> owed.Some?) && (owed.Some? && n in w.pids ==> w.pids[n] == owed.value)
  }

  lemma QuietStepsOweNothing(cfg: Config, w: World, op: Op, n: Name, owed: Option<seq<nat>>)
    requires Agrees(w, n, owed) && (op.DoRegister? || op.DoCancel? || op.DoRestored? || op.DoRelease? || op.DoUse? || op.DoUnregister? || op.DoClose?)
    ensures Agrees(Step(cfg, w, op), n, OwedAfter(cfg, w, op, n, owed))
  {
  }

  lemma ParkingOwes(cfg: Config, w: World, op: Op, n: Name, owed: Option<seq<nat>>)
    requires Agrees(w, n, owed) && op.DoParked?
    ensures Agrees(Step(cfg, w, op), n, OwedAfter(cfg, w, op, n, owed))
  {
  }

  lemma ResumeOwes(cfg: Config, w: World, x: Name, n: Name, owed: Option<seq<nat>>)
    requires Inv(cfg, w) && Agrees(w, n, owed)
    ensures Agrees(Step(cfg, w, DoResume(x)), n, OwedAfter(cfg, w, DoResume(x), n, owed))
    ensures StartsRestore(cfg, w, DoResume(x), n) ==> owed.Some? && n in w.pids && w.pids[n] == owed.value
  {
    ResumeCases(cfg, w, x);
    assert x in w.m.workloads ==> FlagOk(cfg, w, x);
    if MayGrant(cfg, w, x) && Step(cfg, w, DoResume(x)) == GrantOf(cfg, w, x) {
      GrantOwes(cfg, w, x, n, owed);
    }
  }

  lemma GrantOwes(cfg: Config, w: World, x: Name, n: Name, owed: Option<seq<nat>>)
    requires Inv(cfg, w) && Agrees(w, n, owed) && MayGrant(cfg, w, x)
    ensures var z := GrantOf(cfg, w, x);
            var starts := PhaseOf(w, n) != Restoring && PhaseOf(z, n) == Restoring;
            Agrees(z, n, if starts then None else owed) && (starts ==> owed.Some? && n in w.pids && w.pids[n] == owed.value)
  {
    assert FlagOk(cfg, w, x);
  }

  lemma JoinedOwes(cfg: Config, w: World, x: Name, n: Name, owed: Option<seq<nat>>)
    requires Agrees(w, n, owed) && PhaseOf(w, x) == Idle
    ensures Agrees(Joined(cfg, w, x), n, owed) && (PhaseOf(Joined(cfg, w, x), n) == Restoring <==> PhaseOf(w, n) == Restoring)
  {
  }

  /** An acquire that does not get as far as the line changes no phase, no record and no debt. */
  lemma RefusedOwes(cfg: Config, w: World, x: Name, n: Name, owed: Option<seq<nat>>)
    requires Agrees(w, n, owed)
    requires !(PhaseOf(w, x) == Idle && !Granted1(cfg, w, x) && (x in w.m.workloads ==> !w.m.workloads[x].failed))
    ensures Agrees(Step(cfg, w, DoAcquire(x)), n, owed) && !StartsRestore(cfg, w, DoAcquire(x), n)
  {
  }

  lemma AcquireOwes(cfg: Config, w: World, x: Name, n: Name, owed: Option<seq<nat>>)
    requires Inv(cfg, w) && Agrees(w, n, owed)
    ensures Agrees(Step(cfg, w, DoAcquire(x)), n, OwedAfter(cfg, w, DoAcquire(x), n, owed))
    ensures StartsRestore(cfg, w, DoAcquire(x), n) ==> owed.Some? && n in w.pids && w.pids[n] == owed.value
  {
    if PhaseOf(w, x) == Idle && !Granted1(cfg, w, x) && (x in w.m.workloads ==> !w.m.workloads[x].failed) {
      JoiningKeeps(cfg, w, x);
      AcquireIsJoinThenResume(cfg, w, x);
      JoinedOwes(cfg, w, x, n, owed);
      ResumeOwes(cfg, Joined(cfg, w, x), x, n, owed);
    } else {
      RefusedOwes(cfg, w, x, n, owed);
    }
  }

  lemma StepOwes(cfg: Config, w: World, op: Op, n: Name, owed: Option<seq<nat>>)
    requires Inv(cfg, w) && Agrees(w, n, owed)
    ensures Agrees(Step(cfg, w, op), n, OwedAfter(cfg, w, op, n, owed))
  {
    if op.DoResume? {
      ResumeOwes(cfg, w, op.name, n, owed);
    } else if op.DoAcquire? {
      AcquireOwes(cfg, w, op.name, n, owed);
    } else if op.DoParked? {
      ParkingOwes(cfg, w, op, n, owed);
    } else {
      QuietStepsOweNothing(cfg, w, op, n, owed);
    }
  }

  lemma {:induction false} RunOwes(cfg: Config, w: World, ops: seq<Op>, n: Name, owed: Option<seq<nat>>)
    requires Inv(cfg, w) && Agrees(w, n, owed)
    ensures Inv(cfg, Run(cfg, w, ops)) && Agrees(Run(cfg, w, ops), n, Owed(cfg, w, ops, n, owed))
    decreases |ops|
  {
    if ops == [] {
    } else {
      StepKeepsInv(cfg, w, ops[0]);
      StepOwes(cfg, w, ops[0], n, owed);
      RunOwes(cfg, Step(cfg, w, ops[0]), ops[1..], n, OwedAfter(cfg, w, ops[0], n, owed));
    }
  }

  lemma OnlyGrantsRestore(cfg: Config, w: World, op: Op, n: Name)
    requires StartsRestore(cfg, w, op, n)
    ensures op.DoResume? || op.DoAcquire?
  {
  }

  /**
    In every run, whenever a restore starts, an earlier checkpoint of that
    workload that saved processes has not been restored yet, and the restorer's
    record has exactly the processes which that checkpoint saved.
  */
  lemma RestoresAreOwed(cfg: Config, ops: seq<Op>, op: Op, n: Name)
    requires StartsRestore(cfg, Run(cfg, START, ops), op, n)
    ensures var owed, w := Owed(cfg, START, ops, n, None), Run(cfg, START, ops);
            owed.Some? && n in w.pids && w.pids[n] == owed.value
  {
    var w := Run(cfg, START, ops);
    RunOwes(cfg, START, ops, n, None);
    OnlyGrantsRestore(cfg, w, op, n);
    if op.DoResume? {
      ResumeOwes(cfg, w, op.name, n, Owed(cfg, START, ops, n, None));
    } else {
      AcquireOwes(cfg, w, op.name, n, Owed(cfg, START, ops, n, None));
    }
  }
}
