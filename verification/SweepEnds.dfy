/**
  The other half of the reaper: a sweep that finds none of an owner's sessions
  live tears the owner down and forgets it, in a bounded number of its own steps,
  whatever runs in between.
*/
module SweepEnds {
  import opened Wrappers
  import opened SessionReaper

  /** Somebody sweeps the owner, from the list of its sessions to the last deletion. */
  predicate InSweep(w: World, owner: string)
  {
    Sweeping(w, owner) || PhaseOf(w, owner).ForgetOwner?
  }

  /** The owner has no sessions and is not on the list of owners. */
  predicate Forgotten(w: World, owner: string)
  {
    SetMembers(w.st, OwnerKey(owner)) == {} && owner !in SetMembers(w.st, OwnersKey)
  }

  /** Nobody of the owner's is live. */
  predicate NobodyLive(w: World, owner: string)
  {
    forall s :: s in SetMembers(w.st, OwnerKey(owner)) ==> !IsLive(w, s)
  }

  /** Whoever is still a session of the owner is still to be checked or about to be dropped. */
  predicate SweptSoFar(w: World, owner: string)
  {
    match PhaseOf(w, owner)
    case ReapCheck(todo) => Members(w, owner) <= todo
    case ReapDrop(s, todo) => Members(w, owner) <= todo + {s}
    case ReapRecheck => Members(w, owner) == {}
    case TearDown => Members(w, owner) == {}
    case ForgetMembers => Members(w, owner) == {}
    case ForgetOwner => Members(w, owner) == {}
    case _ => true
  }

  /** How many of the sweep's own steps are left at most. */
  function StepsLeft(w: World, owner: string): nat
  {
    match PhaseOf(w, owner)
    case ReapList => 2 * |Members(w, owner)| + 6
    case ReapCheck(todo) => 2 * |todo| + 5
    case ReapDrop(_, todo) => 2 * |todo| + 6
    case ReapRecheck => 4
    case TearDown => 3
    case ForgetMembers => 2
    case ForgetOwner => 1
    case _ => 0
  }

  /** The sweep takes a step; when it has sessions to check it picks one of them. */
  predicate Effective(w: World, op: Op, owner: string)
  {
    op.Advances? && op.owner == owner &&
    (PhaseOf(w, owner).ReapCheck? && PhaseOf(w, owner).todo != {} ==> op.pick in PhaseOf(w, owner).todo)
  }

  lemma OwnStep(w: World, pick: string, owner: string)
    requires InSweep(w, owner) && SweptSoFar(w, owner) && NobodyLive(w, owner)
    ensures var z := Step(w, Advances(owner, pick));
            && (InSweep(z, owner) ==> SweptSoFar(z, owner))
            && (Effective(w, Advances(owner, pick), owner) ==> StepsLeft(z, owner) < StepsLeft(w, owner))
            && (!InSweep(z, owner) ==> PhaseOf(w, owner).ForgetOwner? && Forgotten(z, owner))
    ensures StepsLeft(Step(w, Advances(owner, pick)), owner) <= StepsLeft(w, owner)
  {
    match PhaseOf(w, owner) {
      case ReapCheck(todo) =>
        if pick in todo {
          LivenessOfDropped(w, owner, pick);
        }
      case _ =>
    }
  }

  /** Checking a session never finds one live that is no longer the owner's, or none of those that are. */
  lemma LivenessOfDropped(w: World, owner: string, pick: string)
    requires PhaseOf(w, owner).ReapCheck? && pick in PhaseOf(w, owner).todo && SweptSoFar(w, owner) && NobodyLive(w, owner)
    ensures var todo, z := PhaseOf(w, owner).todo, Step(w, Advances(owner, pick));
            && Members(z, owner) == Members(w, owner) && |todo - {pick}| == |todo| - 1
            && PhaseOf(z, owner) == (if IsLive(w, pick) then ReapCheck(todo - {pick}) else ReapDrop(pick, todo - {pick}))
            && (IsLive(w, pick) ==> pick !in Members(w, owner))
  {
  }

  lemma OthersStep(w: World, op: Op, owner: string)
    requires InSweep(w, owner) && !(op.Advances? && op.owner == owner) && op != Fails(owner)
    ensures PhaseOf(Step(w, op), owner) == PhaseOf(w, owner) && Members(Step(w, op), owner) == Members(w, owner)
  {
  }

  predicate DeadWhileSwept(w: World, ops: seq<Op>, owner: string)
    decreases |ops|
  {
    InSweep(w, owner) ==>
      NobodyLive(w, owner) && (ops != [] ==> ops[0] != Fails(owner) && DeadWhileSwept(Step(w, ops[0]), ops[1..], owner))
  }

  function EffectiveSteps(w: World, ops: seq<Op>, owner: string): nat
    decreases |ops|
  {
    if ops == [] then 0
    else (if Effective(w, ops[0], owner) then 1 else 0) + EffectiveSteps(Step(w, ops[0]), ops[1..], owner)
  }

  predicate TornDownAndForgotten(w: World, ops: seq<Op>, owner: string)
    decreases |ops|
  {
    (!InSweep(w, owner) && Forgotten(w, owner)) || (ops != [] && TornDownAndForgotten(Step(w, ops[0]), ops[1..], owner))
  }

  /** The workers are released at some point. */
  predicate VisitsTearDown(w: World, ops: seq<Op>, owner: string)
    decreases |ops|
  {
    PhaseOf(w, owner).TearDown? || (ops != [] && VisitsTearDown(Step(w, ops[0]), ops[1..], owner))
  }

  lemma {:induction false} SweepEndsFrom(w: World, ops: seq<Op>, owner: string)
    requires InSweep(w, owner) && SweptSoFar(w, owner) && DeadWhileSwept(w, ops, owner)
    requires EffectiveSteps(w, ops, owner) >= StepsLeft(w, owner)
    ensures TornDownAndForgotten(w, ops, owner)
    ensures PhaseOf(w, owner).ForgetMembers? || PhaseOf(w, owner).ForgetOwner? || VisitsTearDown(w, ops, owner)
    decreases |ops|
  {
    if ops == [] {
    } else {
      var op, z := ops[0], Step(w, ops[0]);
      if op.Advances? && op.owner == owner {
        OwnStep(w, op.pick, owner);
      } else {
        OthersStep(w, op, owner);
      }
      if InSweep(z, owner) {
        SweepEndsFrom(z, ops[1..], owner);
      } else {
        assert Forgotten(z, owner);
        assert TornDownAndForgotten(z, ops[1..], owner);
      }
    }
  }

  /**
    A sweep that never finds any of the owner's sessions live, and none of whose
    commands fails, tears the owner's workers down and forgets the owner within
    twice as many of its own steps as the owner has sessions, and six more.
  */
  lemma DeadOwnersAreForgotten(w: World, ops: seq<Op>, owner: string)
    requires PhaseOf(w, owner).ReapList? && DeadWhileSwept(w, ops, owner)
    requires EffectiveSteps(w, ops, owner) >= 2 * |SetMembers(w.st, OwnerKey(owner))| + 6
    ensures VisitsTearDown(w, ops, owner) && TornDownAndForgotten(w, ops, owner)
  {
    SweepEndsFrom(w, ops, owner);
  }

  /** A sweep or an attach starts when nobody holds the owner's lock, and otherwise has to wait. */
  lemma LockIsTakenWhenFree(w: World, owner: string, session: string)
    ensures var (a, r) := (Step(w, Attaches(session, owner)), Step(w, Reaps(owner)));
            && a.st == r.st == w.st && a.now == r.now == w.now
            && (if owner !in w.phases || w.phases[owner] == Free
                then a.phases == w.phases[owner := AttachBeat(session)] && r.phases == w.phases[owner := ReapList]
                else a == r == w)
  {
  }

  /** An attach, run to its end: it beats the session's heart first, and ends with the session among the owner's. */
  lemma AttachMakesMember(w: World, owner: string, s: string, a: string, b: string, c: string)
    requires PhaseOf(w, owner).Free?
    ensures var z := Step(Step(Step(Step(w, Attaches(s, owner)), Advances(owner, a)), Advances(owner, b)), Advances(owner, c));
            && PhaseOf(z, owner) == Free && s in SetMembers(z.st, OwnerKey(owner)) && owner in SetMembers(z.st, OwnersKey)
            && SessionKey(s) in z.st.values && SessionKey(s) in z.st.expiries && z.st.expiries[SessionKey(s)] == w.now + w.ttl
  {
  }
}
