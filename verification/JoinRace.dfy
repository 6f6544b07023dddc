/**
  The two sides of the join protocol that its safety theorem leaves open, on the
  smallest example: booked seats may overshoot a node, and two racers that each
  would have fit alone may both find it overcommitted and both yield.
*/
module JoinRace {
  import opened Wrappers
  import opened ClaimLedger
  import opened JoinProtocol

  const CONFIG: Config := Config(["c"], map["c" := "n"], map["n" := 10], map[])
  const FIRST: Seat := Seat("a", "ua", 1, "a", false, 6)
  const SECOND: Seat := Seat("b", "ub", 2, "b", false, 6)

  /** The first seat is booked, then its claim created, then the second seat booked; no join is under way. */
  const FOUNDED: State := State(1, map["c" := Ledger(1, [FIRST])], map[], map[1 := 1], map[], map[])
  const CREATED: State := State(2, map["c" := Ledger(1, [FIRST])], map["c" := 2], map[1 := 1], map[], map[])
  const BOTH_BOOKED: State := State(3, map["c" := Ledger(3, [FIRST, SECOND])], map["c" := 2], map[1 := 1, 2 := 3], map[], map[])

  const FOUNDING: seq<Op> := [Book("c", FIRST, true), CreateClaim("c")]
  const LISTS: seq<Op> := [ListClaims(1, "c", 1), ListClaims(2, "c", 2), ListLedgers(1), ListLedgers(2)]

  lemma RunStep(cfg: Config, s: State, ops: seq<Op>, next: State)
    requires ops != [] && Step(cfg, s, ops[0]) == next
    ensures Run(cfg, s, ops) == Run(cfg, next, ops[1..])
  {
  }

  lemma Founded(cfg: Config)
    ensures Run(cfg, INIT, FOUNDING) == CREATED
  {
    assert [] + [FIRST] == [FIRST];
    assert Stamp(map[], [FIRST], 1) == map[1 := 1] by {
      assert FIRST in [FIRST];
    }
    assert Step(cfg, INIT, Book("c", FIRST, true)) == FOUNDED;
    RunStep(cfg, INIT, FOUNDING, FOUNDED);
    RunStep(cfg, FOUNDED, FOUNDING[1..], CREATED);
    assert FOUNDING[1..][1..] == [];
  }

  lemma SecondPlaced()
    ensures Placed([FIRST], SECOND) == [FIRST, SECOND] && !Adopts([FIRST], SECOND) && Compatible([FIRST], SECOND)
    ensures Stamp(map[1 := 1], [FIRST, SECOND], 3) == map[1 := 1, 2 := 3]
  {
    assert FindSeat([FIRST], "b") == None by {
      assert [FIRST][1..] == [];
    }
    assert SECOND in [FIRST, SECOND];
  }

  lemma Books(cfg: Config, s: State, claim: Name, seat: Seat, next: State)
    requires BookEnabled(s, claim, seat, false) && Commit(s, claim, Placed(SeatsOf(s, claim), seat)) == next
    ensures Run(cfg, s, [Book(claim, seat, false)]) == next
  {
    RunStep(cfg, s, [Book(claim, seat, false)], next);
  }

  lemma SecondBooks(cfg: Config)
    ensures Run(cfg, CREATED, [Book("c", SECOND, false)]) == BOTH_BOOKED
  {
    SecondPlaced();
    assert SeatsOf(CREATED, "c") == [FIRST] && BookEnabled(CREATED, "c", SECOND, false);
    Books(cfg, CREATED, "c", SECOND, BOTH_BOOKED);
  }

  lemma BothBook(cfg: Config)
    ensures Run(cfg, INIT, FOUNDING + [Book("c", SECOND, false)]) == BOTH_BOOKED
  {
    Founded(cfg);
    SecondBooks(cfg);
    RunAppend(cfg, INIT, FOUNDING, [Book("c", SECOND, false)]);
  }

  lemma TooHeavy(s: State, j: Join)
    requires SeatsOf(s, "c") == [FIRST, SECOND] && "c" in j.listed && j.claim == "c"
    ensures !Passes(CONFIG, s, j)
  {
    assert Bytes([FIRST, SECOND][1..]) == 6;
    assert Bytes([FIRST, SECOND]) == 12;
    var w := ListedWeight(CONFIG, s, "n", j.listed);
    assert w("c") == 12;
    assert Sum(["c"], w) == 12;
  }

  lemma BothYield()
    ensures Run(CONFIG, BOTH_BOOKED, LISTS) == BOTH_BOOKED
  {
    var j1, j2 := Join("c", 1, 3, map["c" := 2]), Join("c", 2, 3, map["c" := 2]);
    var s1 := BOTH_BOOKED.(joins := map[1 := j1]);
    var s2 := BOTH_BOOKED.(joins := map[1 := j1, 2 := j2]);
    var s3 := BOTH_BOOKED.(joins := map[2 := j2]);
    RunStep(CONFIG, BOTH_BOOKED, LISTS, s1);
    RunStep(CONFIG, s1, LISTS[1..], s2);
    assert LISTS[1..][1..] == LISTS[2..];
    TooHeavy(s2, j1);
    RunStep(CONFIG, s2, LISTS[2..], s3);
    assert LISTS[2..][1..] == LISTS[3..];
    TooHeavy(s3, j2);
    RunStep(CONFIG, s3, LISTS[3..], BOTH_BOOKED);
    assert LISTS[3..][1..] == [];
  }

  /** Twelve bytes booked on a node of ten, and neither racer verified. */
  lemma RacersMayOvershootAndBothYield()
    ensures Run(CONFIG, INIT, FOUNDING + [Book("c", SECOND, false)] + LISTS) == BOTH_BOOKED
    ensures Bytes(SeatsOf(BOTH_BOOKED, "c")) > CONFIG.hostMemory["n"]
    ensures VerifiedBytes(CONFIG, BOTH_BOOKED, "n") == 0
  {
    BothBook(CONFIG);
    BothYield();
    RunAppend(CONFIG, INIT, FOUNDING + [Book("c", SECOND, false)], LISTS);
    assert Bytes([FIRST, SECOND][1..]) == 6;
    assert VerifiedSeatBytes(BOTH_BOOKED, "c", [FIRST, SECOND][1..]) == 0;
    assert VerifiedWeight(CONFIG, BOTH_BOOKED, "n")("c") == 0;
  }

  // ---------- a join that passes ----------

  const OWN_LISTS: seq<Op> := [ListClaims(1, "c", 1), ListLedgers(1)]
  const VERIFIED: State := CREATED.(verified := map[1 := Verdict("c", 2, 2)])

  /** The same node with some bytes reserved for others. */
  function Reserving(bytes: nat): Config
  {
    CONFIG.(reserved := map["n" := bytes])
  }

  lemma FitsIff(bytes: nat, s: State, j: Join)
    requires SeatsOf(s, "c") == [FIRST] && "c" in j.listed && j.claim == "c"
    ensures Passes(Reserving(bytes), s, j) <==> bytes <= 4
  {
    assert Bytes([FIRST][1..]) == 0;
    var w := ListedWeight(Reserving(bytes), s, "n", j.listed);
    assert w("c") == 6;
    assert Sum(["c"], w) == 6;
  }

  lemma AloneLists(bytes: nat)
    ensures Run(Reserving(bytes), CREATED, OWN_LISTS) == if bytes <= 4 then VERIFIED else CREATED
  {
    var cfg, j := Reserving(bytes), Join("c", 1, 2, map["c" := 2]);
    var joining := CREATED.(joins := map[1 := j]);
    assert Step(cfg, CREATED, ListClaims(1, "c", 1)) == joining;
    RunStep(cfg, CREATED, OWN_LISTS, joining);
    FitsIff(bytes, joining, j);
    assert Step(cfg, joining, ListLedgers(1)) == if bytes <= 4 then VERIFIED else CREATED;
    RunStep(cfg, joining, OWN_LISTS[1..], if bytes <= 4 then VERIFIED else CREATED);
    assert OWN_LISTS[1..][1..] == [];
  }

  /**
    Six bytes alone on a node of ten: the join passes if and only if at most four
    bytes are reserved there, and the six count as verified then.
  */
  lemma JoinPassesIff(bytes: nat)
    ensures VerifiedBytes(Reserving(bytes), Run(Reserving(bytes), INIT, FOUNDING + OWN_LISTS), "n") == if bytes <= 4 then 6 else 0
  {
    var cfg := Reserving(bytes);
    Founded(cfg);
    AloneLists(bytes);
    RunAppend(cfg, INIT, FOUNDING, OWN_LISTS);
    var s := if bytes <= 4 then VERIFIED else CREATED;
    assert VerifiedSeatBytes(s, "c", [FIRST][1..]) == 0;
    assert VerifiedSeatBytes(s, "c", [FIRST]) == if bytes <= 4 then 6 else 0;
    assert VerifiedWeight(cfg, s, "n")("c") == if bytes <= 4 then 6 else 0;
    assert Sum(["c"], VerifiedWeight(cfg, s, "n")) == if bytes <= 4 then 6 else 0;
  }
}
