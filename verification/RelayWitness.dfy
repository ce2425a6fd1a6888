/** Histories that reach what the safety results set aside. */
module RelayWitness {
  import opened Common
  import opened RelayWorld
  import opened RelayInvariant
  import opened RelaySafety
  import opened RelayHistory

  /** One named instance after first boot, its first certificate uploaded by hand. */
  const FIRST := Relay(true,
    Disk(Holds(0), Holds(0), Absent, Absent, Absent, Absent, Absent, Absent),
    Saved(None, None, None, None, None), Idle, Ledger({0}, {}, {}, {}, [], 0, 0, false, false))

  const ALONE := World([0], [Credential(0, None)], {0}, map[0 := FIRST])

  lemma AloneStarts()
    ensures Start(ALONE)
  {
    assert FirstBoot(ALONE, 0, FIRST);
  }

  ghost predicate Reachable(w: World) {
    exists trace :: After(ALONE, trace) == Some(w)
  }

  /** P is kept by every step of the instance. */
  ghost predicate Kept(P: World -> bool) {
    forall w, e | P(w) && Next(w, 0, e).Some? :: P(Next(w, 0, e).value)
  }

  lemma ReachableKept()
    ensures Kept(w => Reachable(w))
  {
    forall w, e | Reachable(w) && Next(w, 0, e).Some? ensures Reachable(Next(w, 0, e).value) {
      var trace :| After(ALONE, trace) == Some(w);
      AfterAppend(ALONE, trace, Step(0, e));
    }
  }

  lemma Play(P: World -> bool, w: World, e: Event) returns (v: World)
    requires Kept(P) && P(w) && Next(w, 0, e).Some?
    ensures P(v) && v == Apply(w, 0, e)
  {
    v := Next(w, 0, e).value;
  }

  /** The instance in the middle of a run, with the directory so far. */
  function Amid(disk: Disk, saved: Saved, mem: Mem, ledger: Ledger, certs: seq<Inst>, keys: seq<Credential>): World {
    World(certs, keys, if |keys| == 1 then {0} else {0} + {1}, map[0 := Relay(true, disk, saved, mem, ledger)])
  }

  const UPLOADED := [Credential(0, None)]
  const BOTH := UPLOADED + [Credential(1, Some(0))]
  const LOADED := NEW_RUN.(curKey := Some(0), cur := Some(0), staged := Some(1), made := true)
  const NEW_PAIR := FIRST.disk.(newKey := Holds(1), newCert := Holds(1))
  const RECORDED_RUN := LOADED.(begun := true, added := Some(1), recorded := true)
  const PROVEN_RUN := RECORDED_RUN.(visible := true, minted := true, proven := true)
  const PENDING := FIRST.saved.(addition := Some(Addition(1, 1)))
  const CREATED := FIRST.ledger.(created := {} + {1})
  const RETIRING := FIRST.saved.(removal := Some(Removal(0, 0, 0)))
  const SWAPPED := FIRST.disk.(liveKey := Holds(1), liveCert := Holds(1), prevKey := Holds(0), prevCert := Holds(0))

  lemma StartRun(P: World -> bool)
    requires Kept(P) && P(ALONE)
    ensures P(Amid(FIRST.disk, FIRST.saved, Busy(LOADED, {}, {}), FIRST.ledger, [0, 0], UPLOADED))
  {
    var w := Play(P, ALONE, Boot(Rotation));
    w := Play(P, w, Load);
    w := Play(P, w, MakeCert);
    assert w == Amid(FIRST.disk, FIRST.saved, Busy(LOADED, {}, {}), FIRST.ledger, [0, 0], UPLOADED);
  }

  lemma StageKey(P: World -> bool)
    requires Kept(P) && P(ALONE)
    ensures P(Amid(FIRST.disk.(newKey := Holds(1)), FIRST.saved, Busy(LOADED.(begun := true), {}, {}), FIRST.ledger,
                   [0, 0], UPLOADED))
  {
    StartRun(P);
    var w := Amid(FIRST.disk, FIRST.saved, Busy(LOADED, {}, {}), FIRST.ledger, [0, 0], UPLOADED);
    w := Play(P, w, OpenKey(New));
    w := Play(P, w, WriteKey(New));
    assert w == Amid(FIRST.disk.(newKey := Holds(1)), FIRST.saved, Busy(LOADED.(begun := true), {}, {}), FIRST.ledger,
                     [0, 0], UPLOADED);
  }

  lemma StagePair(P: World -> bool)
    requires Kept(P) && P(ALONE)
    ensures P(Amid(NEW_PAIR, FIRST.saved, Busy(LOADED.(begun := true), {}, {}), FIRST.ledger, [0, 0], UPLOADED))
  {
    StageKey(P);
    var w := Amid(FIRST.disk.(newKey := Holds(1)), FIRST.saved, Busy(LOADED.(begun := true), {}, {}), FIRST.ledger,
                  [0, 0], UPLOADED);
    w := Play(P, w, OpenCert(New));
    w := Play(P, w, WriteCert(New));
    assert w == Amid(NEW_PAIR, FIRST.saved, Busy(LOADED.(begun := true), {}, {}), FIRST.ledger, [0, 0], UPLOADED);
  }

  lemma AddPair(P: World -> bool)
    requires Kept(P) && P(ALONE)
    ensures P(Amid(NEW_PAIR, FIRST.saved, Busy(LOADED.(begun := true, added := Some(1)), {}, {}), CREATED, [0, 0],
                   BOTH))
  {
    StagePair(P);
    var w := Amid(NEW_PAIR, FIRST.saved, Busy(LOADED.(begun := true), {}, {}), FIRST.ledger, [0, 0], UPLOADED);
    w := Play(P, w, AddKey);
    assert w == Amid(NEW_PAIR, FIRST.saved, Busy(LOADED.(begun := true, added := Some(1)), {}, {}), CREATED, [0, 0],
                     BOTH);
  }

  lemma RecordPair(P: World -> bool)
    requires Kept(P) && P(ALONE)
    ensures P(Amid(NEW_PAIR, PENDING, Busy(RECORDED_RUN, {}, {}), CREATED, [0, 0], BOTH))
  {
    AddPair(P);
    var w := Amid(NEW_PAIR, FIRST.saved, Busy(LOADED.(begun := true, added := Some(1)), {}, {}), CREATED, [0, 0], BOTH);
    w := Play(P, w, SaveAddition);
    assert w == Amid(NEW_PAIR, PENDING, Busy(RECORDED_RUN, {}, {}), CREATED, [0, 0], BOTH);
  }

  lemma ProvePair(P: World -> bool)
    requires Kept(P) && P(ALONE)
    ensures P(Amid(NEW_PAIR, PENDING, Busy(PROVEN_RUN, {}, {}), CREATED, [0, 0], BOTH))
  {
    RecordPair(P);
    var w := Amid(NEW_PAIR, PENDING, Busy(RECORDED_RUN, {}, {}), CREATED, [0, 0], BOTH);
    w := Play(P, w, SeeKey);
    w := Play(P, w, MintStaged);
    w := Play(P, w, Prove(true, true));
    assert w == Amid(NEW_PAIR, PENDING, Busy(PROVEN_RUN, {}, {}), CREATED, [0, 0], BOTH);
  }

  lemma SwapPair(P: World -> bool)
    requires Kept(P) && P(ALONE)
    ensures P(Amid(SWAPPED, PENDING, Busy(PROVEN_RUN.(swap := 4), {}, {}), CREATED.(wasLive := {0} + {1}), [0, 0],
                   BOTH))
  {
    ProvePair(P);
    var w := Amid(NEW_PAIR, PENDING, Busy(PROVEN_RUN, {}, {}), CREATED, [0, 0], BOTH);
    w := Play(P, w, Swap(1));
    w := Play(P, w, Swap(2));
    w := Play(P, w, Swap(3));
    w := Play(P, w, Swap(4));
    assert w == Amid(SWAPPED, PENDING, Busy(PROVEN_RUN.(swap := 4), {}, {}), CREATED.(wasLive := {0} + {1}), [0, 0],
                     BOTH);
  }

  lemma FinishRotation(P: World -> bool)
    requires Kept(P) && P(ALONE)
    ensures P(Amid(SWAPPED, RETIRING, Idle, CREATED.(wasLive := {0} + {1}), [0, 0], BOTH))
  {
    SwapPair(P);
    var w := Amid(SWAPPED, PENDING, Busy(PROVEN_RUN.(swap := 4), {}, {}), CREATED.(wasLive := {0} + {1}), [0, 0], BOTH);
    w := Play(P, w, SaveRotated(Some(0), 0));
    w := Play(P, w, Finish);
    assert w == Amid(SWAPPED, RETIRING, Idle, CREATED.(wasLive := {0} + {1}), [0, 0], BOTH);
  }

  /** The live certificate is the one whose retirement is due. */
  ghost predicate RetiresLive(w: World) {
    && Next(w, 0, PostRemove(0, Retired(7 * 86400, 7), true)).Some?
    && |w.keys| > 0 && LiveAt(w, 0, w.keys[0].thumb)
  }

  lemma RollBackRun(P: World -> bool) returns (w: World)
    requires Kept(P) && P(ALONE)
    ensures P(w) && RetiresLive(w)
  {
    FinishRotation(P);
    w := Amid(SWAPPED, RETIRING, Idle, CREATED.(wasLive := {0} + {1}), [0, 0], BOTH);
    w := Play(P, w, RollBack);
    w := Play(P, w, Boot(Rotation));
    w := Play(P, w, Load);
  }

  /** An operator who puts the `.previous` pair back within the grace period still
      has the retirement of that very certificate scheduled: after the grace
      period the next run asks the directory to remove the live credential. */
  lemma RollBackThenRetireHitsLive() returns (trace: seq<Step>, w: World)
    ensures Start(ALONE) && After(ALONE, trace) == Some(w)
    ensures RetiresLive(w)
  {
    AloneStarts();
    ReachableKept();
    assert After(ALONE, []) == Some(ALONE);
    w := RollBackRun(w => Reachable(w));
    trace :| After(ALONE, trace) == Some(w);
  }

  const LONE_CERT := NEW_PAIR.(liveKey := Absent, prevKey := Holds(0))

  lemma DieAfterFirstRename(P: World -> bool)
    requires Kept(P) && P(ALONE)
    ensures P(Amid(LONE_CERT, PENDING, Busy(NEW_RUN.(job := Reset), {}, {}), CREATED, [0, 0], BOTH))
  {
    ProvePair(P);
    var w := Amid(NEW_PAIR, PENDING, Busy(PROVEN_RUN, {}, {}), CREATED, [0, 0], BOTH);
    w := Play(P, w, Swap(1));
    w := Play(P, w, Die);
    w := Play(P, w, Boot(Reset));
    assert w == Amid(LONE_CERT, PENDING, Busy(NEW_RUN.(job := Reset), {}, {}), CREATED, [0, 0], BOTH);
  }

  /** At rest, with a complete live pair of two generations and no roll back. */
  ghost predicate RestsMixed(w: World) {
    && 0 in w.relays && w.relays[0].mem.Idle?
    && !Paired(w.relays[0].disk) && !w.relays[0].ledger.rolledBack
  }

  lemma HalfSwapRun(P: World -> bool) returns (w: World)
    requires Kept(P) && P(ALONE)
    ensures P(w) && RestsMixed(w)
  {
    DieAfterFirstRename(P);
    w := Amid(LONE_CERT, PENDING, Busy(NEW_RUN.(job := Reset), {}, {}), CREATED, [0, 0], BOTH);
    w := Play(P, w, MakeCert);
    w := Play(P, w, OpenKey(Live));
    w := Play(P, w, WriteKey(Live));
    w := Play(P, w, Die);
  }

  /** A death after the first rename leaves a certificate without a key; a reset
      that then dies between its two writes leaves a new key beside it. */
  lemma ResetAfterHalfSwapMixes() returns (trace: seq<Step>, w: World)
    ensures Start(ALONE) && After(ALONE, trace) == Some(w)
    ensures RestsMixed(w)
  {
    AloneStarts();
    ReachableKept();
    assert After(ALONE, []) == Some(ALONE);
    w := HalfSwapRun(w => Reachable(w));
    trace :| After(ALONE, trace) == Some(w);
  }

  // --------------------------------------------------- a clock that is not restarted

  /** Where a history ends, and what the gates see of it. */
  datatype Sight = Sight(world: World, faults: nat, calm: nat, before: nat, first: Option<int>)

  ghost predicate Seen(trace: seq<Step>, s: Sight) {
    && After(ALONE, trace) == Some(s.world)
    && FaultRun(trace, 0) == s.faults && CalmRun(trace, 0) == s.calm && CalmBefore(trace, 0) == s.before
    && (s.faults > 0 ==>
          s.first.Some? && FirstFault(trace, 0).Some? && trace[FirstFault(trace, 0).value].what.now == s.first.value)
  }

  /** The sight one step later. */
  function Further(s: Sight, e: Event): Sight
    requires 0 in s.world.relays
  {
    var v := Apply(s.world, 0, e);
    if e.SaveFault? then
      if s.faults == 0 then Sight(v, 1, 0, s.calm, Some(e.now)) else Sight(v, s.faults + 1, 0, s.before, s.first)
    else if e.SaveHealthy? then Sight(v, 0, s.calm + 1, s.before, None)
    else if Settles(e) then Sight(v, 0, s.calm + 2, s.before, None)
    else s.(world := v)
  }

  lemma SeenFurther(trace: seq<Step>, s: Sight, e: Event)
    requires Seen(trace, s) && Next(s.world, 0, e).Some?
    ensures Seen(trace + [Step(0, e)], Further(s, e))
  {
    var longer := trace + [Step(0, e)];
    AfterAppend(ALONE, trace, Step(0, e));
    assert longer[..|longer| - 1] == trace;
  }

  ghost predicate Sighted(s: Sight) {
    exists trace :: Seen(trace, s)
  }

  ghost predicate KeptSights(P: Sight -> bool) {
    forall s, e | P(s) && Next(s.world, 0, e).Some? :: P(Further(s, e))
  }

  lemma SightedKept()
    ensures KeptSights(s => Sighted(s))
  {
    forall s, e | Sighted(s) && Next(s.world, 0, e).Some? ensures Sighted(Further(s, e)) {
      var trace :| Seen(trace, s);
      SeenFurther(trace, s, e);
    }
  }

  lemma Look(P: Sight -> bool, s: Sight, e: Event) returns (t: Sight)
    requires KeptSights(P) && P(s) && Next(s.world, 0, e).Some?
    ensures P(t) && t == Further(s, e)
  {
    t := Further(s, e);
  }

  /** The instance at rest after some recovery passes. */
  function Rested(streak: Option<nat>, since: Option<int>): World {
    ALONE.(relays := map[0 := FIRST.(saved := FIRST.saved.(streak := streak, since := since))])
  }

  /** In the middle of a recovery pass. */
  function Passing(streak: Option<nat>, since: Option<int>, run: Run): World {
    ALONE.(relays := map[0 := FIRST.(saved := FIRST.saved.(streak := streak, since := since),
                                     mem := Busy(run, {}, {}))])
  }

  const PASS := NEW_RUN.(job := Recovery, curKey := Some(0), cur := Some(0))

  /** In a pass whose live pair failed. */
  function Faulting(streak: Option<nat>, since: Option<int>, counted: bool): World {
    Passing(streak, since, PASS.(liveFault := true, counted := counted))
  }

  lemma PassBegins(P: Sight -> bool, streak: Option<nat>, since: Option<int>, s: Sight)
    requires KeptSights(P) && P(s) && s.world == Rested(streak, since)
    ensures P(s.(world := Passing(streak, since, PASS)))
  {
    var t := Look(P, s, Boot(Recovery));
    assert t == s.(world := Passing(streak, since, NEW_RUN.(job := Recovery)));
    t := Look(P, t, Load);
    assert t == s.(world := Passing(streak, since, PASS));
  }

  lemma LiveFails(P: Sight -> bool, since: Option<int>, calm: nat, before: nat)
    requires KeptSights(P) && P(Sight(Rested(None, since), 0, calm, before, None))
    ensures P(Sight(Faulting(None, since, false), 0, calm, before, None))
  {
    PassBegins(P, None, since, Sight(Rested(None, since), 0, calm, before, None));
    var s := Look(P, Sight(Passing(None, since, PASS), 0, calm, before, None), LiveFaults);
    assert s == Sight(Faulting(None, since, false), 0, calm, before, None);
  }

  lemma FaultCounted(P: Sight -> bool, since: Option<int>, now: int, calm: nat, before: nat)
    requires KeptSights(P) && P(Sight(Faulting(None, since, false), 0, calm, before, None)) && 0 < now
    requires since.Some? ==> since.value != 0
    ensures P(Sight(Faulting(Some(1), if since.Some? then since else Some(now), true), 1, 0, calm, Some(now)))
  {
    var s := Look(P, Sight(Faulting(None, since, false), 0, calm, before, None), SaveFault(now));
    assert s == Sight(Faulting(Some(1), if since.Some? then since else Some(now), true), 1, 0, calm, Some(now));
  }

  lemma FaultyPass(P: Sight -> bool, now: int)
    requires KeptSights(P) && P(Sight(Rested(None, None), 0, 2, 0, None)) && 0 < now
    ensures P(Sight(Rested(Some(1), Some(now)), 1, 0, 2, Some(now)))
  {
    LiveFails(P, None, 2, 0);
    FaultCounted(P, None, now, 2, 0);
    var s := Look(P, Sight(Faulting(Some(1), Some(now), true), 1, 0, 2, Some(now)), Finish);
    assert s == Sight(Rested(Some(1), Some(now)), 1, 0, 2, Some(now));
  }

  lemma HealthyPass(P: Sight -> bool, since: int)
    requires KeptSights(P) && P(Sight(Rested(Some(1), Some(since)), 1, 0, 2, Some(since)))
    ensures P(Sight(Rested(None, Some(since)), 0, 1, 2, None))
  {
    PassBegins(P, Some(1), Some(since), Sight(Rested(Some(1), Some(since)), 1, 0, 2, Some(since)));
    var s := Look(P, Sight(Passing(Some(1), Some(since), PASS), 1, 0, 2, Some(since)), LiveMints);
    assert s == Sight(Passing(Some(1), Some(since), PASS.(liveOk := true)), 1, 0, 2, Some(since));
    HealthySaved(P, since);
    s := Look(P, Sight(Passing(None, Some(since), PASS.(liveOk := true)), 0, 1, 2, None), Finish);
    assert s == Sight(Rested(None, Some(since)), 0, 1, 2, None);
  }

  lemma HealthySaved(P: Sight -> bool, since: int)
    requires KeptSights(P) && P(Sight(Passing(Some(1), Some(since), PASS.(liveOk := true)), 1, 0, 2, Some(since)))
    ensures P(Sight(Passing(None, Some(since), PASS.(liveOk := true)), 0, 1, 2, None))
  {
    var s := Look(P, Sight(Passing(Some(1), Some(since), PASS.(liveOk := true)), 1, 0, 2, Some(since)), SaveHealthy);
    assert s == Sight(Passing(None, Some(since), PASS.(liveOk := true)), 0, 1, 2, None);
  }

  lemma FaultAfterOneHealthyPass(P: Sight -> bool, t0: int, t1: int)
    requires KeptSights(P) && P(Sight(Rested(None, None), 0, 2, 0, None)) && 0 < t0 && 0 < t1
    ensures P(Sight(Faulting(Some(1), Some(t0), true), 1, 0, 1, Some(t1)))
  {
    FaultyPass(P, t0);
    HealthyPass(P, t0);
    LiveFails(P, Some(t0), 1, 2);
    FaultCounted(P, Some(t0), t1, 1, 2);
  }

  lemma GateIsOpen(t0: int, t1: int, needSeconds: int)
    requires t1 - t0 >= needSeconds
    ensures Next(Faulting(Some(1), Some(t0), true), 0, MakeStandby(t1, 1, needSeconds)).Some?
  {
  }

  /** A fault, one healthy pass, and a fault again, whatever the configured seconds:
      the very first fault of the new run generates a standby at once. */
  lemma OneHealthyPassKeepsClock(t0: int, t1: int, needSeconds: int) returns (trace: seq<Step>, w: World)
    requires 0 < t0 && 0 < t1 && t1 - t0 >= needSeconds
    ensures Start(ALONE) && After(ALONE, trace) == Some(w)
    ensures FaultRun(trace, 0) == 1 && FirstFault(trace, 0).Some?
    ensures trace[FirstFault(trace, 0).value].what.now == t1
    ensures Next(w, 0, MakeStandby(t1, 1, needSeconds)).Some?
  {
    AloneStarts();
    SightedKept();
    assert Seen([], Sight(Rested(None, None), 0, 2, 0, None));
    FaultAfterOneHealthyPass(s => Sighted(s), t0, t1);
    w := Faulting(Some(1), Some(t0), true);
    trace :| Seen(trace, Sight(w, 1, 0, 1, Some(t1)));
    GateIsOpen(t0, t1, needSeconds);
  }
}
