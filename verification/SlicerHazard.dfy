/**
  Why the time slicer relies on one call in flight per name. Without that, the
  critical sections may run in any order, and a wait left over from a
  disconnected process takes away the grant of the process that replaced it.
*/
module SlicerHazard {
  import opened Wrappers
  import opened TimeSlicer
  import opened SlicerSafety

  datatype Call =
    | Registers(name: Name, connection: Option<nat>)
    | Acquires(name: Name)
    | Resumes(name: Name)
    | Closes(closing: nat)

  /** One critical section, with no regard to what else the name has in flight; everything is on one claim. */
  function Section(policy: Policy, m: Monitor, call: Call): Monitor
  {
    match call
    case Registers(n, connection) => Register(m, n, "c", connection)
    case Acquires(n) => Acquire(policy, m, n, "c").0
    case Resumes(n) => Resume(policy, m, n, "c").0
    case Closes(closing) => Closed(m, closing)
  }

  function Sections(policy: Policy, m: Monitor, calls: seq<Call>): Monitor
    decreases |calls|
  {
    if calls == [] then m else Sections(policy, Section(policy, m, calls[0]), calls[1..])
  }

  lemma {:induction false} SectionsAppend(policy: Policy, m: Monitor, a: seq<Call>, b: seq<Call>)
    ensures Sections(policy, m, a + b) == Sections(policy, Sections(policy, m, a), b)
    decreases |a|
  {
    if a == [] {
      assert a + b == b;
    } else {
      assert (a + b)[1..] == a[1..] + b;
      SectionsAppend(policy, Section(policy, m, a[0]), a[1..], b);
    }
  }

  lemma TwoSections(policy: Policy, m: Monitor, first: Call, second: Call, between: Monitor, after: Monitor)
    requires Section(policy, m, first) == between && Section(policy, between, second) == after
    ensures Sections(policy, m, [first, second]) == after
  {
    assert [first, second][1..] == [second];
    assert [second][1..] == [];
    assert Sections(policy, after, []) == after;
  }

  const B: Workload := Workload(Some(1), "c", false, false)
  const A: Workload := Workload(Some(2), "c", false, false)
  const GONE: Workload := Workload(None, "c", false, true)
  const RETURNED: Workload := Workload(Some(3), "c", false, false)

  /** "b" registers and is granted the claim. */
  const B_HOLDS: Monitor := Monitor(map["b" := B], [], map["c" := "b"], map[])

  /** "a" registers and waits. */
  const A_WAITS: Monitor := Monitor(map["b" := B, "a" := A], ["a"], map["c" := "b"], map[])

  /** Both connections close. */
  const BOTH_GONE: Monitor := Monitor(map["b" := GONE, "a" := GONE], [], map[], map[])

  /** "a" comes back on a third connection and is granted the free claim. */
  const A_HOLDS: Monitor := Monitor(map["b" := GONE, "a" := RETURNED], [], map["c" := "a"], map[])

  const CALLS: seq<Call> :=
    ([Registers("b", Some(1)), Acquires("b")] + [Registers("a", Some(2)), Acquires("a")]) +
    ([Closes(2), Closes(1)] + [Registers("a", Some(3)), Acquires("a")])

  /** A free claim nobody waits for is granted at once. */
  lemma GrantedAlone(policy: Policy, m: Monitor, n: Name)
    requires m.waiting == [] && "c" !in m.running && n in m.workloads && m.workloads[n].claim == "c" && !m.workloads[n].failed
    ensures Acquire(policy, m, n, "c").0 == m.(running := m.running["c" := n])
  {
    assert [] + [n] == [n] && [n][1..] == [];
    assert WaitersOn(m.workloads, [n][1..], "c") == [];
    assert WaitersOn(m.workloads, [n], "c") == [n];
    assert Remove([n], n) == [];
  }

  lemma FirstHolds(policy: Policy)
    ensures Sections(policy, START.m, [Registers("b", Some(1)), Acquires("b")]) == B_HOLDS
  {
    var registered := Monitor(map["b" := B], [], map[], map[]);
    GrantedAlone(policy, registered, "b");
    TwoSections(policy, START.m, Registers("b", Some(1)), Acquires("b"), registered, B_HOLDS);
  }

  lemma SecondWaits(policy: Policy)
    ensures Sections(policy, B_HOLDS, [Registers("a", Some(2)), Acquires("a")]) == A_WAITS
  {
    var registered := B_HOLDS.(workloads := map["b" := B, "a" := A]);
    assert [] + ["a"] == ["a"];
    TwoSections(policy, B_HOLDS, Registers("a", Some(2)), Acquires("a"), registered, A_WAITS);
  }

  lemma BothClose(policy: Policy)
    ensures Sections(policy, A_WAITS, [Closes(2), Closes(1)]) == BOTH_GONE
  {
    var closed := Monitor(map["b" := B, "a" := GONE], [], map["c" := "b"], map[]);
    assert On(A_WAITS, 2) == {"a"};
    assert Outside(["a"][1..], {"a"}) == [];
    assert Closed(A_WAITS, 2) == closed;
    assert On(closed, 1) == {"b"};
    TwoSections(policy, A_WAITS, Closes(2), Closes(1), closed, BOTH_GONE);
  }

  lemma FirstReturns(policy: Policy)
    ensures Sections(policy, BOTH_GONE, [Registers("a", Some(3)), Acquires("a")]) == A_HOLDS
  {
    var registered := BOTH_GONE.(workloads := map["b" := GONE, "a" := RETURNED]);
    GrantedAlone(policy, registered, "a");
    TwoSections(policy, BOTH_GONE, Registers("a", Some(3)), Acquires("a"), registered, A_HOLDS);
  }

  /** After these calls the new process of "a" holds the claim, until the wait of its predecessor resumes. */
  lemma StaleWaitTakesTheNewGrant(policy: Policy)
    ensures var m := Sections(policy, START.m, CALLS);
            Holds(m, "a", "c") && !Holds(Section(policy, m, Resumes("a")), "a", "c")
  {
    FirstHolds(policy);
    SecondWaits(policy);
    BothClose(policy);
    FirstReturns(policy);
    SectionsAppend(policy, START.m, [Registers("b", Some(1)), Acquires("b")], [Registers("a", Some(2)), Acquires("a")]);
    SectionsAppend(policy, A_WAITS, [Closes(2), Closes(1)], [Registers("a", Some(3)), Acquires("a")]);
    SectionsAppend(policy, START.m, [Registers("b", Some(1)), Acquires("b")] + [Registers("a", Some(2)), Acquires("a")],
                   [Closes(2), Closes(1)] + [Registers("a", Some(3)), Acquires("a")]);
    StaleResumeDropsTheGrant(policy, A_HOLDS, "a", "c");
  }
}
