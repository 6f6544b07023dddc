/**
  The accelerator time slicer. The first half is what each critical section of
  the monitor does to its fields; SlicerMonitor.dfy shows that the monitor's
  methods do exactly that. The second half interleaves the sections: between
  them a workload waits, restores or checkpoints, and anyone else may run.

  Hypotheses, built into the steps: a name keeps one claim for life; at most one
  acquire or release per name is in flight; a close or unregister of a name does
  not overlap its own restore or checkpoint; once its connection is closed or it
  is unregistered, a process is off the devices; and between two grants a
  workload puts nothing on the devices, so only its holder uses a claim.
*/
module TimeSlicer {
  import opened Wrappers

  type Name = string
  type Claim = string

  datatype Policy = Fifo | LeastRecentlyServed

  datatype Workload = Workload(connection: Option<nat>, claim: Claim, checkpointed: bool, failed: bool)

  datatype Monitor = Monitor(
    workloads: map<Name, Workload>,
    waiting: seq<Name>,
    running: map<Claim, Name>,
    lastRelease: map<Name, nat>)

  datatype Answer = Granted(restore: bool) | Waits | Refused

  // ---------- the waiting line ----------

  predicate NoDup(names: seq<Name>)
  {
    forall i, j :: 0 <= i < j < |names| ==> names[i] != names[j]
  }

  function Remove(names: seq<Name>, name: Name): seq<Name>
  {
    if names == [] then []
    else if names[0] == name then names[1..]
    else [names[0]] + Remove(names[1..], name)
  }

  function WaitersOn(workloads: map<Name, Workload>, waiting: seq<Name>, claim: Claim): seq<Name>
  {
    if waiting == [] then []
    else
      var rest := WaitersOn(workloads, waiting[1..], claim);
      if waiting[0] in workloads && workloads[waiting[0]].claim == claim then [waiting[0]] + rest else rest
  }

  function Last(lastRelease: map<Name, nat>, name: Name): nat
  {
    if name in lastRelease then lastRelease[name] else 0
  }

  /** Of the names that were served longest ago, the one that comes first. */
  function LeastServed(names: seq<Name>, lastRelease: map<Name, nat>): (r: Name)
    requires names != []
    ensures r in names
    ensures forall n :: n in names ==> Last(lastRelease, r) <= Last(lastRelease, n)
  {
    if |names| == 1 then names[0]
    else
      var rest := LeastServed(names[1..], lastRelease);
      if Last(lastRelease, rest) < Last(lastRelease, names[0]) then rest else names[0]
  }

  /** Whoever comes before the one chosen was served later. */
  lemma {:induction false} LeastServedIsEarliest(names: seq<Name>, lastRelease: map<Name, nat>) returns (i: nat)
    requires names != []
    ensures i < |names| && names[i] == LeastServed(names, lastRelease)
    ensures forall j :: 0 <= j < i ==> Last(lastRelease, names[i]) < Last(lastRelease, names[j])
    ensures forall j :: i <= j < |names| ==> Last(lastRelease, names[i]) <= Last(lastRelease, names[j])
  {
    i := 0;
    if |names| == 1 {
    } else {
      var rest := LeastServed(names[1..], lastRelease);
      if Last(lastRelease, rest) < Last(lastRelease, names[0]) {
        var k := LeastServedIsEarliest(names[1..], lastRelease);
        i := k + 1;
        assert names[i] == names[1..][k];
        forall j | 0 <= j < i ensures Last(lastRelease, names[i]) < Last(lastRelease, names[j]) {
          assert j > 0 ==> names[j] == names[1..][j - 1];
        }
      }
    }
    assert forall j :: i <= j < |names| ==> names[j] in names;
  }

  function NextWaiter(policy: Policy, m: Monitor, claim: Claim): Option<Name>
  {
    var waiting := WaitersOn(m.workloads, m.waiting, claim);
    if waiting == [] then None
    else if policy.Fifo? || |waiting| == 1 then Some(waiting[0])
    else Some(LeastServed(waiting, m.lastRelease))
  }

  // ---------- critical sections ----------

  function Clear(m: Monitor, name: Name): Monitor
  {
    m.(waiting := Remove(m.waiting, name),
       running := map c | c in m.running && m.running[c] != name :: m.running[c])
  }

  predicate Holds(m: Monitor, name: Name, claim: Claim)
  {
    claim in m.running && m.running[claim] == name
  }

  function Register(m: Monitor, name: Name, claim: Claim, connection: Option<nat>): Monitor
  {
    var state := if name in m.workloads
                 then m.workloads[name].(connection := connection, claim := claim, failed := false)
                 else Workload(connection, claim, false, false);
    m.(workloads := m.workloads[name := state])
  }

  /** The waiting loop's test, and what follows it when the wait is over. */
  function Resume(policy: Policy, m: Monitor, name: Name, claim: Claim): (Monitor, Answer)
  {
    if name in m.waiting && (claim in m.running || NextWaiter(policy, m, claim) != Some(name)) then (m, Waits)
    else if name !in m.workloads || m.workloads[name].failed || name !in m.waiting then (Clear(m, name), Refused)
    else (m.(waiting := Remove(m.waiting, name), running := m.running[claim := name]), Granted(m.workloads[name].checkpointed))
  }

  /** An acquire up to its first wait. The flag says whether it got as far as joining the line. */
  function Acquire(policy: Policy, m: Monitor, name: Name, claim: Claim): (Monitor, Answer, bool)
  {
    var known := if name in m.workloads then m else Register(m, name, claim, None);
    if known.workloads[name].failed || name in known.waiting || Holds(known, name, claim)
    then (known, Refused, false)
    else
      var (after, answer) := Resume(policy, known.(waiting := known.waiting + [name]), name, claim);
      (after, answer, true)
  }

  function CancelWait(m: Monitor, name: Name): Monitor
  {
    m.(waiting := Remove(m.waiting, name))
  }

  function SetCheckpointed(m: Monitor, name: Name, checkpointed: bool): Monitor
  {
    if name in m.workloads
    then m.(workloads := m.workloads[name := m.workloads[name].(checkpointed := checkpointed)])
    else m
  }

  function Parked(m: Monitor, name: Name, checkpointed: bool, now: nat): Monitor
  {
    var flagged := SetCheckpointed(m, name, checkpointed);
    Clear(flagged.(lastRelease := flagged.lastRelease[name := now]), name)
  }

  function Faulted(m: Monitor, name: Name): Monitor
  {
    if name in m.workloads
    then m.(workloads := m.workloads[name := m.workloads[name].(failed := true, checkpointed := false)])
    else m
  }

  function Unregister(m: Monitor, name: Name): Monitor
  {
    Clear(m, name).(workloads := m.workloads - {name})
  }

  function On(m: Monitor, connection: nat): set<Name>
  {
    set n | n in m.workloads && m.workloads[n].connection == Some(connection)
  }

  function Outside(names: seq<Name>, gone: set<Name>): seq<Name>
  {
    if names == [] then []
    else (if names[0] in gone then [] else [names[0]]) + Outside(names[1..], gone)
  }

  /** These workloads are gone: out of the line, without their grants, failed until they register again. */
  function CloseNames(m: Monitor, gone: set<Name>): Monitor
  {
    m.(waiting := Outside(m.waiting, gone),
       running := map c | c in m.running && m.running[c] !in gone :: m.running[c],
       workloads := map n | n in m.workloads ::
         if n in gone then m.workloads[n].(connection := None, checkpointed := false, failed := true) else m.workloads[n])
  }

  function Closed(m: Monitor, connection: nat): Monitor
  {
    CloseNames(m, On(m, connection))
  }

  // ---------- the world around the monitor ----------

  /** What the name's one call in flight is doing. */
  datatype Phase = Idle | Waiting(notified: bool) | Restoring | Parking

  /** How a checkpoint ended: nothing on the device, these processes saved, or an error. */
  datatype Checkpoint = NothingThere | Saved(pids: seq<nat>) | Failed

  /**
    `pids` is the restorer's record of saved processes. History: `resident` is
    who may have memory on the devices, `unrestored` whose last checkpoint has
    not been restored, `overtakers` who was granted each waiter's claim since it
    joined the line (a holder is struck off when its grant ends without a completed
    release), and `badRestore` whether a restore was ever issued without a
    checkpoint to restore.
  */
  datatype World = World(
    m: Monitor,
    phase: map<Name, Phase>,
    pids: map<Name, seq<nat>>,
    resident: set<Name>,
    unrestored: set<Name>,
    overtakers: map<Name, seq<Name>>,
    badRestore: bool)

  const START := World(Monitor(map[], [], map[], map[]), map[], map[], {}, {}, map[], false)

  datatype Config = Config(policy: Policy, claimOf: Name -> Claim)

  datatype Op =
    | DoRegister(name: Name, connection: Option<nat>)
    | DoAcquire(name: Name)
    | DoResume(name: Name)
    | DoCancel(name: Name)
    | DoRestored(name: Name, worked: bool)
    | DoRelease(name: Name)
    | DoParked(name: Name, outcome: Checkpoint, now: nat)
    | DoUnregister(name: Name)
    | DoClose(closing: nat)
    | DoUse(name: Name)

  function PhaseOf(w: World, name: Name): Phase
  {
    if name in w.phase then w.phase[name] else Idle
  }

  function Notify(phase: map<Name, Phase>): map<Name, Phase>
  {
    map n | n in phase :: if phase[n].Waiting? then Waiting(true) else phase[n]
  }

  predicate Busy(w: World, name: Name)
  {
    PhaseOf(w, name) == Restoring || PhaseOf(w, name) == Parking
  }

  predicate HasPids(w: World, name: Name)
  {
    name in w.pids && w.pids[name] != []
  }

  /** Everyone in line for the claim has been overtaken once more. */
  function Overtake(cfg: Config, w: World, waiting: seq<Name>, name: Name): map<Name, seq<Name>>
  {
    map n | n in w.overtakers ::
      if n in waiting && n != name && cfg.claimOf(n) == cfg.claimOf(name) then w.overtakers[n] + [name] else w.overtakers[n]
  }

  function Strike(overtakers: map<Name, seq<Name>>, gone: set<Name>): map<Name, seq<Name>>
  {
    map n | n in overtakers :: Outside(overtakers[n], gone)
  }

  /** Those of the names that hold their claim. */
  function Holders(cfg: Config, m: Monitor, names: set<Name>): set<Name>
  {
    set n | n in names && Holds(m, n, cfg.claimOf(n))
  }

  /** The end of a critical section of acquire. */
  function Answered(cfg: Config, w: World, name: Name, m: Monitor, answer: Answer): World
  {
    match answer
    case Waits => w.(m := m, phase := w.phase[name := Waiting(false)])
    case Refused => w.(m := m, phase := Notify(w.phase)[name := Idle])
    case Granted(restore) =>
      w.(m := m,
         phase := Notify(w.phase)[name := if restore then Restoring else Idle],
         overtakers := Overtake(cfg, w, m.waiting, name),
         resident := if restore then w.resident + {name} else w.resident,
         unrestored := if restore then w.unrestored - {name} else w.unrestored,
         badRestore := w.badRestore || (restore && (name !in w.unrestored || !HasPids(w, name))))
  }

  function Step(cfg: Config, w: World, op: Op): World
  {
    match op
    case DoRegister(n, connection) =>
      w.(m := Register(w.m, n, cfg.claimOf(n), connection), phase := Notify(w.phase))
    case DoAcquire(n) =>
      if PhaseOf(w, n) != Idle then w
      else
        var (m, answer, inLine) := Acquire(cfg.policy, w.m, n, cfg.claimOf(n));
        if inLine then Answered(cfg, w.(overtakers := w.overtakers[n := []]), n, m, answer) else w.(m := m)
    case DoResume(n) =>
      if PhaseOf(w, n) != Waiting(true) then w
      else
        var (m, answer) := Resume(cfg.policy, w.m, n, cfg.claimOf(n));
        Answered(cfg, w, n, m, answer)
    case DoCancel(n) =>
      if !PhaseOf(w, n).Waiting? then w
      else w.(m := CancelWait(w.m, n), phase := Notify(w.phase)[n := Idle])
    case DoRestored(n, worked) =>
      if PhaseOf(w, n) != Restoring then w
      else w.(m := SetCheckpointed(w.m, n, false), phase := Notify(w.phase)[n := Idle],
              pids := if worked && HasPids(w, n) then w.pids - {n} else w.pids)
    case DoRelease(n) =>
      if PhaseOf(w, n) == Idle && n in w.m.workloads && Holds(w.m, n, cfg.claimOf(n))
      then w.(phase := w.phase[n := Parking]) else w
    case DoParked(n, outcome, now) =>
      if PhaseOf(w, n) != Parking then w
      else
        var idle := w.(phase := Notify(w.phase)[n := Idle]);
        (match outcome
         case NothingThere =>
           idle.(m := Parked(w.m, n, false, now), pids := w.pids - {n}, resident := w.resident - {n})
         case Saved(pids) =>
           if pids == [] then w
           else idle.(m := Parked(w.m, n, true, now), pids := w.pids[n := pids],
                      resident := w.resident - {n}, unrestored := w.unrestored + {n})
         case Failed => idle.(m := Faulted(w.m, n)))
    case DoUnregister(n) =>
      if Busy(w, n) || n !in w.m.workloads then w
      else w.(m := Unregister(w.m, n), phase := Notify(w.phase), resident := w.resident - {n},
              overtakers := Strike(w.overtakers, Holders(cfg, w.m, {n})))
    case DoClose(closing) =>
      var gone := On(w.m, closing);
      if exists n :: n in gone && Busy(w, n) then w
      else w.(m := Closed(w.m, closing), phase := Notify(w.phase), resident := w.resident - gone,
              overtakers := Strike(w.overtakers, Holders(cfg, w.m, gone)))
    case DoUse(n) =>
      if PhaseOf(w, n) == Idle && Holds(w.m, n, cfg.claimOf(n)) then w.(resident := w.resident + {n}) else w
  }

  function Run(cfg: Config, w: World, ops: seq<Op>): World
    decreases |ops|
  {
    if ops == [] then w else Run(cfg, Step(cfg, w, ops[0]), ops[1..])
  }
}
