/** Where the keys of replaced certificates end up. */
module RelayRetirement {
  import opened Common
  import opened RelayWorld
  import opened RelayInvariant
  import opened RelaySafety

  // ------------------------------------------------------------------ history

  /** The certificates this instance's completed swaps replaced. */
  function ReplacedBy(w: World, trace: seq<Step>, i: Inst): set<Gen> {
    if trace == [] then {}
    else
      var n := |trace| - 1;
      ReplacedBy(w, trace[..n], i) +
      if trace[n].who == i && trace[n].what == Swap(4) then Outgoing(After(w, trace[..n]), i) else {}
  }

  function Outgoing(w: Option<World>, i: Inst): set<Gen> {
    if w.Some? && i in w.value.relays && w.value.relays[i].mem.Busy? && w.value.relays[i].mem.run.cur.Some?
    then {w.value.relays[i].mem.run.cur.value} else {}
  }

  /** The retirement an event loses: one not yet written when the process dies, one
      for which no key matched, one overwritten by the next, one a reset drops. */
  function Loses(r: Relay, e: Event): (lost: set<Gen>)
    ensures |lost| <= 1
  {
    match e
    case Die => if AwaitsSchedule(r) then {r.mem.run.cur.value} else {}
    case SaveRotated(found, _) => LosesOnSchedule(r, found)
    case SaveRecovered(found, _) => LosesOnSchedule(r, found)
    case SaveReset => Scheduled(r)
    case _ => {}
  }

  function LosesOnSchedule(r: Relay, found: Option<KeyId>): (lost: set<Gen>)
    ensures |lost| <= 1
  {
    if found.Some? then Scheduled(r)
    else if AwaitsSchedule(r) then {r.mem.run.cur.value} else {}
  }

  function Scheduled(r: Relay): (thumbs: set<Gen>)
    ensures |thumbs| <= 1
  {
    if r.saved.removal.Some? then {r.saved.removal.value.thumb} else {}
  }

  predicate AwaitsSchedule(r: Relay) {
    r.mem.Busy? && r.mem.run.cur.Some? && Unscheduled(r.saved, r.mem.run)
  }

  function LosesAt(w: Option<World>, s: Step, i: Inst): (lost: set<Gen>)
    ensures |lost| <= 1
  {
    if s.who == i && w.Some? && i in w.value.relays then Loses(w.value.relays[i], s.what) else {}
  }

  function LostRetirements(w: World, trace: seq<Step>, i: Inst): set<Gen> {
    if trace == [] then {}
    else
      var n := |trace| - 1;
      LostRetirements(w, trace[..n], i) + LosesAt(After(w, trace[..n]), trace[n], i)
  }

  /** How many events lost one. */
  function RetirementLosses(w: World, trace: seq<Step>, i: Inst): nat {
    if trace == [] then 0
    else
      var n := |trace| - 1;
      RetirementLosses(w, trace[..n], i) + if LosesAt(After(w, trace[..n]), trace[n], i) == {} then 0 else 1
  }

  lemma {:induction false} LostAreCounted(w: World, trace: seq<Step>, i: Inst)
    ensures |LostRetirements(w, trace, i)| <= RetirementLosses(w, trace, i)
  {
    if trace != [] {
      var n := |trace| - 1;
      LostAreCounted(w, trace[..n], i);
      SizeOfSum(LostRetirements(w, trace[..n], i), LosesAt(After(w, trace[..n]), trace[n], i));
    }
  }

  lemma SizeOfSum(a: set<Gen>, b: set<Gen>)
    ensures |a + b| <= |a| + |b|
  {
    assert a + b == a + (b - a);
    assert |b - a| <= |b| by {
      assert b == (b - a) + (b * a);
    }
  }

  // ------------------------------------------------------------------ one step

  /** The replaced certificate's key is scheduled, or its process is about to do so. */
  predicate Pending(r: Relay, g: Gen) {
    g in Scheduled(r) || (AwaitsSchedule(r) && r.mem.run.cur == Some(g))
  }

  /** The events that touch the records a retirement hangs on. */
  predicate Records(e: Event) {
    e.Load? || e.Swap? || e.Die? || e.Finish? || e.AddKeyUnanswered? || e.ClearLive? || e.ClearGone? || e.ClearRetired?
    || e.SaveAddition? || e.SaveRotated? || e.SaveDiscard? || e.SaveMissing? || e.SaveStandby? || e.SaveRecovered?
    || e.SaveReset?
  }

  lemma QuietKeepsPending(u: World, r: Relay, e: Event, t: Relay, g: Gen)
    requires Pending(r, g) && !Records(e) && (e.Boot? ==> r.mem.Idle?) && t == RelayAfter(u, r, e)
    ensures Pending(t, g)
  {
    QuietSaved(r, e);
  }

  lemma QuietSaved(r: Relay, e: Event)
    requires !Records(e)
    ensures SavedAfter(r.saved, r.mem, e).addition == r.saved.addition
    ensures SavedAfter(r.saved, r.mem, e).removal == r.saved.removal
    ensures SavedAfter(r.saved, r.mem, e).recovery == r.saved.recovery
  {
  }

  /** What the invariant says of a process that has begun its swap. */
  predicate SwapShape(r: Relay) {
    r.mem.Busy? && r.mem.run.swap > 0 ==>
      && r.mem.run.staged.Some?
      && match r.mem.run.job
         case Rotation => r.mem.run.recorded && (r.mem.run.swap < 4 ==> r.saved.addition.Some?)
         case Recovery => r.mem.run.swap == 4 ==> !r.mem.run.liveOk
         case _ => false
  }

  lemma ShapeHolds(u: World, i: Inst)
    requires Inv(u) && i in u.relays
    ensures SwapShape(u.relays[i])
  {
    assert RelayOk(u, i, u.relays[i]);
  }

  /** What the process does to its memory keeps a pending retirement, or it dies first. */
  lemma ProcessMovesPending(u: World, i: Inst, r: Relay, e: Event, t: Relay, g: Gen)
    requires SwapShape(r) && r.mem.Busy? && EnabledRun(u, i, r, r.mem.run, e) && t == RelayAfter(u, r, e)
    requires Pending(r, g) && (e.Load? || e.Swap? || e.Die? || e.Finish? || e.AddKeyUnanswered?)
    ensures Pending(t, g) || g in Loses(r, e)
  {
    match e
    case Load => assert t.saved == r.saved;
    case Swap(n) => assert t.saved == r.saved;
    case Die => assert t.saved == r.saved;
    case Finish => assert t.saved == r.saved;
    case AddKeyUnanswered => assert t.saved == r.saved;
  }

  lemma ClearsMovePending(u: World, i: Inst, r: Relay, e: Event, t: Relay, g: Gen)
    requires SwapShape(r) && r.mem.Busy? && EnabledRun(u, i, r, r.mem.run, e) && t == RelayAfter(u, r, e)
    requires Pending(r, g) && (e.ClearLive? || e.ClearGone? || e.ClearRetired? || e.SaveAddition? || e.SaveReset?)
    ensures Pending(t, g) || g in Loses(r, e) || (e.ClearRetired? && g in Scheduled(r))
  {
    match e
    case ClearLive => assert t.saved == r.saved.(addition := None);
    case ClearGone => assert t.saved == r.saved.(addition := None);
    case ClearRetired => assert t.mem == r.mem;
    case SaveAddition => assert t.saved == r.saved.(addition := t.saved.addition) && t.saved.addition.Some?;
    case SaveReset => assert t.saved == r.saved.(addition := None, removal := None, recovery := None);
  }

  lemma SchedulesMovePending(u: World, i: Inst, r: Relay, e: Event, t: Relay, g: Gen)
    requires SwapShape(r) && r.mem.Busy? && EnabledRun(u, i, r, r.mem.run, e) && t == RelayAfter(u, r, e)
    requires Pending(r, g)
    requires e.SaveRotated? || e.SaveRecovered? || e.SaveDiscard? || e.SaveMissing? || e.SaveStandby?
    ensures Pending(t, g) || g in Loses(r, e)
  {
    match e
    case SaveRotated(found, now) =>
      assert t.saved == Schedule(r.saved.(addition := None), found, r.mem.run.cur.value, now);
    case SaveDiscard => assert t.saved.removal == r.saved.removal;
    case SaveMissing => assert t.saved.removal == r.saved.removal;
    case SaveStandby => assert t.saved == r.saved.(recovery := r.mem.run.staged);
    case SaveRecovered(found, now) =>
      assert t.saved == Schedule(r.saved.(recovery := None, streak := None, since := None), found,
                                 r.mem.run.cur.value, now);
  }

  /** A pending retirement stays pending, is lost, or its key was seen gone. */
  lemma RecordsMovePending(u: World, i: Inst, r: Relay, e: Event, t: Relay, g: Gen)
    requires SwapShape(r) && r.mem.Busy? && EnabledRun(u, i, r, r.mem.run, e) && t == RelayAfter(u, r, e)
    requires Pending(r, g) && Records(e)
    ensures Pending(t, g) || g in Loses(r, e) || (e.ClearRetired? && g in Scheduled(r))
  {
    if e.Load? || e.Swap? || e.Die? || e.Finish? || e.AddKeyUnanswered? {
      ProcessMovesPending(u, i, r, e, t, g);
    } else if e.ClearLive? || e.ClearGone? || e.ClearRetired? || e.SaveAddition? || e.SaveReset? {
      ClearsMovePending(u, i, r, e, t, g);
    } else {
      SchedulesMovePending(u, i, r, e, t, g);
    }
  }

  /** A retirement record is cleared only once its key was seen gone. */
  lemma ClearedWasSeen(u: World, i: Inst, r: Relay, g: Gen)
    requires Inv(u) && i in u.relays && r == u.relays[i]
    requires r.mem.Busy? && EnabledRun(u, i, r, r.mem.run, ClearRetired) && g in Scheduled(r)
    ensures exists k :: k in r.ledger.gone && k < |u.keys| && u.keys[k].thumb == g
  {
    assert RelayOk(u, i, r);
    assert r.saved.removal.value.keyId in r.ledger.gone;
  }

  lemma SwapAwaits(u: World, i: Inst, r: Relay, t: Relay)
    requires r.mem.Busy? && EnabledRun(u, i, r, r.mem.run, Swap(4)) && t == RelayAfter(u, r, Swap(4))
    ensures r.mem.run.cur.Some? && Pending(t, r.mem.run.cur.value)
  {
    assert t.saved == r.saved && t.mem.run == r.mem.run.(swap := 4);
  }

  // ---------------------------------------------------------------- main result

  predicate SeenAbsentKey(w: World, gone: set<KeyId>, g: Gen) {
    exists k | k in gone :: k < |w.keys| && w.keys[k].thumb == g
  }

  /** The replaced certificate's key: scheduled or about to be, seen absent, or lost. */
  predicate Retired(w: World, i: Inst, gone: set<KeyId>, lost: set<Gen>, g: Gen) {
    i in w.relays && (Pending(w.relays[i], g) || SeenAbsentKey(w, gone, g) || g in lost)
  }

  predicate AllRetired(w0: World, trace: seq<Step>, w: World, i: Inst) {
    var gone, lost := SeenAbsent(trace, i), LostRetirements(w0, trace, i);
    forall g | g in ReplacedBy(w0, trace, i) :: Retired(w, i, gone, lost, g)
  }

  lemma StillRetired(u: World, w: World, i: Inst, gone: set<KeyId>, more: set<KeyId>, lost: set<Gen>, also: set<Gen>,
                     g: Gen)
    requires u.keys <= w.keys && i in w.relays && gone <= more && lost <= also
    requires SeenAbsentKey(u, gone, g) || g in lost
    ensures Retired(w, i, more, also, g)
  {
    if SeenAbsentKey(u, gone, g) {
      var k :| k in gone && k < |u.keys| && u.keys[k].thumb == g;
      assert k in more && w.keys[k] == u.keys[k];
    }
  }

  /** A process may take the event, as far as it touches the records. */
  predicate MayTake(u: World, i: Inst, r: Relay, e: Event) {
    && (Records(e) ==> r.mem.Busy? && EnabledRun(u, i, r, r.mem.run, e))
    && (e.Boot? ==> r.mem.Idle?)
  }

  predicate OwnStep(u: World, i: Inst, e: Event, w: World) {
    && i in u.relays && i in w.relays
    && MayTake(u, i, u.relays[i], e) && w.relays[i] == RelayAfter(u, u.relays[i], e)
  }

  lemma StepOf(u: World, i: Inst, e: Event, w: World)
    requires Next(u, i, e) == Some(w)
    ensures OwnStep(u, i, e, w)
  {
  }

  lemma RelayRetires(u: World, i: Inst, r: Relay, e: Event, t: Relay, g: Gen)
    requires SwapShape(r) && t == RelayAfter(u, r, e) && Pending(r, g)
    requires MayTake(u, i, r, e)
    ensures Pending(t, g) || g in Loses(r, e) || (e.ClearRetired? && g in Scheduled(r))
  {
    if Records(e) {
      RecordsMovePending(u, i, r, e, t, g);
    } else {
      QuietKeepsPending(u, r, e, t, g);
    }
  }

  /** One step of the instance itself, for one replaced certificate. */
  lemma OwnStepRetires(u: World, i: Inst, e: Event, w: World, g: Gen)
    requires Inv(u) && OwnStep(u, i, e, w) && Pending(u.relays[i], g)
    ensures Pending(w.relays[i], g) || g in Loses(u.relays[i], e) || SeenAbsentKey(u, u.relays[i].ledger.gone, g)
  {
    ShapeHolds(u, i);
    RelayRetires(u, i, u.relays[i], e, w.relays[i], g);
    if e.ClearRetired? && g in Scheduled(u.relays[i]) {
      ClearedWasSeen(u, i, u.relays[i], g);
    }
  }

  lemma SwapStepRetires(u: World, i: Inst, w: World)
    requires OwnStep(u, i, Swap(4), w)
    ensures forall g | g in Outgoing(Some(u), i) :: Pending(w.relays[i], g)
  {
    SwapAwaits(u, i, u.relays[i], w.relays[i]);
  }

  /** Every certificate a completed swap replaced has its key scheduled for removal,
      or its process is about to schedule it, or the key was seen absent, or the
      retirement is lost; there are at most as many lost as events that lose one. */
  lemma {:induction false} ReplacedKeysAreAccounted(w0: World, trace: seq<Step>, w: World, i: Inst)
    requires Start(w0) && After(w0, trace) == Some(w) && i in w0.relays
    ensures |LostRetirements(w0, trace, i)| <= RetirementLosses(w0, trace, i)
    ensures AllRetired(w0, trace, w, i)
    decreases |trace|
  {
    LostAreCounted(w0, trace, i);
    if trace != [] {
      var n := |trace| - 1;
      var u, s := After(w0, trace[..n]).value, trace[n];
      ReplacedKeysAreAccounted(w0, trace[..n], u, i);
      AlwaysInv(w0, trace[..n], u);
      LedgerRecounts(w0, trace[..n], u, i);
      FrameOf(u, w, s.who, s.what);
      if s.who == i {
        StepOf(u, i, s.what, w);
      }
      forall g | g in ReplacedBy(w0, trace, i)
        ensures Retired(w, i, SeenAbsent(trace, i), LostRetirements(w0, trace, i), g)
      {
        OneReplaced(w0, trace, u, w, i, g);
      }
    }
  }

  lemma OneReplaced(w0: World, trace: seq<Step>, u: World, w: World, i: Inst, g: Gen)
    requires trace != [] && After(w0, trace[..|trace| - 1]) == Some(u) && Inv(u)
    requires var s := trace[|trace| - 1]; s.who == i ==> OwnStep(u, i, s.what, w)
    requires Recounts(w0, trace[..|trace| - 1], u, i) && Grows(u, w) && i in w.relays
    requires trace[|trace| - 1].who != i ==> w.relays[i] == u.relays[i]
    requires AllRetired(w0, trace[..|trace| - 1], u, i)
    requires g in ReplacedBy(w0, trace, i)
    ensures Retired(w, i, SeenAbsent(trace, i), LostRetirements(w0, trace, i), g)
  {
    var n := |trace| - 1;
    var s := trace[n];
    if g in ReplacedBy(w0, trace[..n], i) {
      if !Pending(u.relays[i], g) {
        StillRetired(u, w, i, SeenAbsent(trace[..n], i), SeenAbsent(trace, i),
                     LostRetirements(w0, trace[..n], i), LostRetirements(w0, trace, i), g);
      } else if s.who == i {
        OwnStepRetires(u, i, s.what, w, g);
        if !Pending(w.relays[i], g) && g !in Loses(u.relays[i], s.what) {
          StillRetired(u, w, i, SeenAbsent(trace[..n], i), SeenAbsent(trace, i), {}, LostRetirements(w0, trace, i), g);
        }
      }
    } else {
      SwapStepRetires(u, i, w);
    }
  }
}
