/**
  Sessions, the owners whose workers they use, and the reaper that tears an
  owner down once no live session uses it. Every command of the state store is
  one step; attaching to an owner and reaping it hold that owner's lock, while
  heartbeats, expiries and other owners' work run in between.
*/
module SessionReaper {
  import opened Wrappers

  // ---------- the state store ----------

  datatype Key = SessionKey(id: string) | OwnerKey(owner: string) | OwnersKey

  datatype State = State(values: map<Key, string>, expiries: map<Key, int>, sets: map<Key, set<string>>)

  function SetValue(st: State, key: Key, value: string, ttl: Option<int>, now: int): State
  {
    st.(values := st.values[key := value],
        expiries := if ttl.Some? then st.expiries[key := now + ttl.value] else st.expiries - {key})
  }

  predicate Expired(st: State, key: Key, now: int)
  {
    key in st.expiries && now >= st.expiries[key]
  }

  /** Reading an expired value removes it. */
  function Swept(st: State, key: Key, now: int): State
  {
    if Expired(st, key, now) then st.(values := st.values - {key}, expiries := st.expiries - {key}) else st
  }

  function GetValue(st: State, key: Key, now: int): Option<string>
  {
    var s := Swept(st, key, now);
    if key in s.values then Some(s.values[key]) else None
  }

  function DeleteValues(st: State, keys: set<Key>): State
  {
    State(st.values - keys, st.expiries - keys, st.sets - keys)
  }

  function SetMembers(st: State, key: Key): set<string>
  {
    if key in st.sets then st.sets[key] else {}
  }

  function AddToSet(st: State, key: Key, member: string): State
  {
    st.(sets := st.sets[key := SetMembers(st, key) + {member}])
  }

  function RemoveFromSet(st: State, key: Key, member: string): State
  {
    if key in st.sets then st.(sets := st.sets[key := st.sets[key] - {member}]) else st
  }

  // ---------- who holds a lock ----------

  function Heartbeat(st: State, session: string, ttl: int, now: int): State
  {
    SetValue(st, SessionKey(session), "1", Some(ttl), now)
  }

  predicate Live(st: State, session: string, now: int)
  {
    GetValue(st, SessionKey(session), now).Some?
  }

  /** Who holds an owner's lock, and the command it does next. */
  datatype Phase =
    | Free
    | AttachBeat(session: string)
    | AttachOwner(session: string)
    | AttachMember(session: string)
    | ReapList
    | ReapCheck(todo: set<string>)
    | ReapDrop(session: string, todo: set<string>)
    | ReapRecheck
    | TearDown
    | ForgetMembers
    | ForgetOwner

  datatype World = World(st: State, now: int, ttl: int, phases: map<string, Phase>)

  function PhaseOf(w: World, owner: string): Phase
  {
    if owner in w.phases then w.phases[owner] else Free
  }

  function Members(w: World, owner: string): set<string>
  {
    SetMembers(w.st, OwnerKey(owner))
  }

  predicate IsLive(w: World, session: string)
  {
    Live(w.st, session, w.now)
  }

  function Next(w: World, owner: string, st: State, phase: Phase): World
  {
    w.(st := st, phases := w.phases[owner := phase])
  }

  /** The lock holder's next command; the reaper may check its sessions in any order. */
  function Advance(w: World, owner: string, pick: string): World
  {
    match PhaseOf(w, owner)
    case Free => w
    case AttachBeat(s) => Next(w, owner, Heartbeat(w.st, s, w.ttl, w.now), AttachOwner(s))
    case AttachOwner(s) => Next(w, owner, AddToSet(w.st, OwnersKey, owner), AttachMember(s))
    case AttachMember(s) => Next(w, owner, AddToSet(w.st, OwnerKey(owner), s), Free)
    case ReapList => Next(w, owner, w.st, ReapCheck(Members(w, owner)))
    case ReapCheck(todo) =>
      if todo == {} then Next(w, owner, w.st, ReapRecheck)
      else if pick !in todo then w
      else
        var swept := Swept(w.st, SessionKey(pick), w.now);
        Next(w, owner, swept, if IsLive(w, pick) then ReapCheck(todo - {pick}) else ReapDrop(pick, todo - {pick}))
    case ReapDrop(s, todo) => Next(w, owner, RemoveFromSet(w.st, OwnerKey(owner), s), ReapCheck(todo))
    case ReapRecheck => Next(w, owner, w.st, if Members(w, owner) != {} then Free else TearDown)
    case TearDown => Next(w, owner, w.st, ForgetMembers)
    case ForgetMembers => Next(w, owner, DeleteValues(w.st, {OwnerKey(owner)}), ForgetOwner)
    case ForgetOwner => Next(w, owner, RemoveFromSet(w.st, OwnersKey, owner), Free)
  }

  /** Fails is a command that raised: the lock is released and nothing more of the attach or sweep is done. */
  datatype Op =
    | Tick(elapsed: nat)
    | Beats(session: string)
    | Attaches(session: string, owner: string)
    | Reaps(owner: string)
    | Advances(owner: string, pick: string)
    | Fails(owner: string)

  function Step(w: World, op: Op): World
  {
    match op
    case Tick(d) => w.(now := w.now + d)
    case Beats(s) => w.(st := Heartbeat(w.st, s, w.ttl, w.now))
    case Attaches(s, o) => if PhaseOf(w, o).Free? then Next(w, o, w.st, AttachBeat(s)) else w
    case Reaps(o) => if PhaseOf(w, o).Free? then Next(w, o, w.st, ReapList) else w
    case Advances(o, pick) => Advance(w, o, pick)
    case Fails(o) => Next(w, o, w.st, Free)
  }

  function Run(w: World, ops: seq<Op>): World
    decreases |ops|
  {
    if ops == [] then w else Run(Step(w, ops[0]), ops[1..])
  }

  // ---------- the lease ----------

  /** The session is live now and after every step: its heartbeats never lapse. */
  predicate LiveThroughout(w: World, ops: seq<Op>, session: string)
    decreases |ops|
  {
    IsLive(w, session) && (ops == [] || LiveThroughout(Step(w, ops[0]), ops[1..], session))
  }

  /** The reaper has decided, or is already deleting. */
  predicate BeingTornDown(w: World, owner: string)
  {
    PhaseOf(w, owner).TearDown? || PhaseOf(w, owner).ForgetMembers? || PhaseOf(w, owner).ForgetOwner?
  }

  predicate NeverTornDown(w: World, ops: seq<Op>, owner: string)
    decreases |ops|
  {
    !BeingTornDown(w, owner) && (ops == [] || NeverTornDown(Step(w, ops[0]), ops[1..], owner))
  }

  /** The session is among the owner's, and the reaper has neither found it dead nor finished. */
  predicate Holds(w: World, session: string, owner: string)
  {
    && session in Members(w, owner) && !BeingTornDown(w, owner)
    && !(PhaseOf(w, owner).ReapDrop? && PhaseOf(w, owner).session == session)
  }

  lemma AdvanceKeepsHold(w: World, other: string, pick: string, session: string, owner: string)
    requires Holds(w, session, owner) && IsLive(w, session)
    ensures Holds(Advance(w, other, pick), session, owner)
  {
  }

  lemma StepKeepsHold(w: World, op: Op, session: string, owner: string)
    requires Holds(w, session, owner) && IsLive(w, session)
    ensures Holds(Step(w, op), session, owner)
  {
    if op.Advances? {
      AdvanceKeepsHold(w, op.owner, op.pick, session, owner);
    }
  }

  lemma {:induction false} HoldLasts(w: World, ops: seq<Op>, session: string, owner: string)
    requires Holds(w, session, owner) && LiveThroughout(w, ops, session)
    ensures NeverTornDown(w, ops, owner) && Holds(Run(w, ops), session, owner)
    decreases |ops|
  {
    if ops == [] {
    } else {
      StepKeepsHold(w, ops[0], session, owner);
      HoldLasts(Step(w, ops[0]), ops[1..], session, owner);
    }
  }

  /**
    From the step that completes its attach, a session whose heartbeats never
    lapse keeps its owner from being torn down, whatever the interleaving.
  */
  lemma LiveSessionsKeepTheirOwner(w: World, owner: string, pick: string, ops: seq<Op>)
    requires PhaseOf(w, owner).AttachMember?
    requires LiveThroughout(Step(w, Advances(owner, pick)), ops, PhaseOf(w, owner).session)
    ensures NeverTornDown(Step(w, Advances(owner, pick)), ops, owner)
    ensures PhaseOf(w, owner).session in Members(Run(Step(w, Advances(owner, pick)), ops), owner)
  {
    HoldLasts(Step(w, Advances(owner, pick)), ops, PhaseOf(w, owner).session, owner);
  }

  // ---------- the sweep ----------

  /** Somebody holds the owner's lock for a sweep. */
  predicate Sweeping(w: World, owner: string)
  {
    match PhaseOf(w, owner)
    case ReapList | ReapCheck(_) | ReapDrop(_, _) | ReapRecheck | TearDown | ForgetMembers => true
    case _ => false
  }

  predicate SweepingThroughout(w: World, ops: seq<Op>, owner: string)
    decreases |ops|
  {
    Sweeping(w, owner) && (ops == [] || SweepingThroughout(Step(w, ops[0]), ops[1..], owner))
  }

  /** The reaper goes ahead only after it has seen the owner without sessions. */
  predicate EmptyWhenTornDown(w: World, owner: string)
  {
    PhaseOf(w, owner).TearDown? || PhaseOf(w, owner).ForgetMembers? ==> Members(w, owner) == {}
  }

  lemma StepAddsNobody(w: World, op: Op, owner: string)
    requires Sweeping(w, owner)
    ensures Members(Step(w, op), owner) <= Members(w, owner)
    ensures EmptyWhenTornDown(w, owner) ==> EmptyWhenTornDown(Step(w, op), owner)
  {
  }

  /** The lock keeps every attach to the owner out for as long as a sweep runs. */
  lemma {:induction false} NobodyAttachesDuringASweep(w: World, ops: seq<Op>, owner: string)
    requires SweepingThroughout(w, ops, owner) && EmptyWhenTornDown(w, owner)
    ensures Members(Run(w, ops), owner) <= Members(w, owner) && EmptyWhenTornDown(Run(w, ops), owner)
    decreases |ops|
  {
    if ops == [] {
    } else {
      StepAddsNobody(w, ops[0], owner);
      NobodyAttachesDuringASweep(Step(w, ops[0]), ops[1..], owner);
    }
  }

  lemma {:induction false} EndsNotTornDown(w: World, ops: seq<Op>, owner: string)
    requires NeverTornDown(w, ops, owner)
    ensures !BeingTornDown(Run(w, ops), owner)
    decreases |ops|
  {
    if ops == [] {
    } else {
      EndsNotTornDown(Step(w, ops[0]), ops[1..], owner);
    }
  }

  /**
    A teardown is justified: when a sweep gets that far, nobody has joined since
    it began, nobody is left, and every session it began with lapsed meanwhile.
  */
  lemma TeardownIsJustified(w: World, ops: seq<Op>, owner: string)
    requires PhaseOf(w, owner).ReapList? && SweepingThroughout(w, ops, owner) && PhaseOf(Run(w, ops), owner).TearDown?
    ensures Members(Run(w, ops), owner) == {}
    ensures forall s :: s in Members(w, owner) ==> !LiveThroughout(w, ops, s)
  {
    NobodyAttachesDuringASweep(w, ops, owner);
    forall s | s in Members(w, owner) ensures !LiveThroughout(w, ops, s) {
      if LiveThroughout(w, ops, s) {
        HoldLasts(w, ops, s, owner);
        EndsNotTornDown(w, ops, owner);
      }
    }
  }

  /** Beating at least once every ttl is enough to stay live. */
  lemma BeatsKeepLive(w: World, session: string, elapsed: nat)
    requires 0 < w.ttl && elapsed < w.ttl
    ensures IsLive(Step(Step(w, Beats(session)), Tick(elapsed)), session)
    ensures !IsLive(Step(Step(w, Beats(session)), Tick(w.ttl)), session)
  {
  }
}
