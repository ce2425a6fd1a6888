/** Statements that name earlier events: what a run must have seen before it
    touches the live pair, and when recovery may generate a standby. */
module RelayHistory {
  import opened Common
  import opened RelayWorld
  import opened RelayInvariant

  // -------------------------------------------------- what happened in this run

  /** Accepted is a proof message the server took; Proved is that, or no recipient to
      send one to, which recovery allows. */
  datatype Milestone = GotKey | WroteKey | SawKey | Minted | Accepted | Proved | LiveFailed | LoadedStandby | Renamed

  predicate Reaches(e: Event, m: Milestone) {
    match m
    case GotKey => e.AddKey?
    case WroteKey => e.SaveAddition?
    case SawKey => e.SeeKey?
    case Minted => e.MintStaged?
    case Accepted => e.Prove? && e.sent
    case Proved => e.Prove? && (e.sent || !e.recipient)
    case LiveFailed => e.LiveFaults?
    case LoadedStandby => e.LoadStandby?
    case Renamed => e == Swap(1)
  }

  /** Since instance i last started a process, it passed these milestones in this order. */
  predicate RanThrough(trace: seq<Step>, i: Inst, ms: seq<Milestone>) {
    ms == [] ||
    (trace != [] &&
     var n := |trace| - 1;
     var s := trace[n];
     !(s.who == i && s.what.Boot?) &&
     (|| RanThrough(trace[..n], i, ms)
      || (s.who == i && Reaches(s.what, ms[|ms| - 1])
          && RanThrough(trace[..n], i, ms[..|ms| - 1]))))
  }

  const ADDED := [GotKey]
  const RECORDED := ADDED + [WroteKey]
  const VISIBLE := RECORDED + [SawKey]
  const MINTED := VISIBLE + [Minted]
  const PROVEN := MINTED + [Accepted]
  const LIVE_FAILED := [LiveFailed]
  const STANDBY_LOADED := LIVE_FAILED + [LoadedStandby]
  const STANDBY_MINTED := STANDBY_LOADED + [Minted]
  const STANDBY_PROVEN := STANDBY_MINTED + [Proved]

  /** Each fact in the process's memory stands for an event of this run. */
  predicate Remembers(trace: seq<Step>, i: Inst, run: Run) {
    && (run.added.Some? ==> RanThrough(trace, i, ADDED))
    && (run.recorded ==> RanThrough(trace, i, RECORDED))
    && (run.visible ==> RanThrough(trace, i, VISIBLE))
    && (run.job == Rotation && run.minted ==> RanThrough(trace, i, MINTED))
    && (run.job == Rotation && run.proven ==> RanThrough(trace, i, PROVEN))
    && (run.liveFault ==> RanThrough(trace, i, LIVE_FAILED))
    && (run.staged.Some? && !run.made ==> RanThrough(trace, i, STANDBY_LOADED))
    && (run.job == Recovery && run.minted ==> RanThrough(trace, i, STANDBY_MINTED))
    && (run.job == Recovery && run.proven ==> RanThrough(trace, i, STANDBY_PROVEN))
    && (RanThrough(trace, i, [Renamed]) ==> run.swap >= 1)
  }

  lemma StillRan(prefix: seq<Step>, s: Step, i: Inst, ms: seq<Milestone>)
    requires !(s.who == i && s.what.Boot?)
    ensures RanThrough(prefix, i, ms) ==> RanThrough(prefix + [s], i, ms)
    ensures (ms != [] && s.who == i && Reaches(s.what, ms[|ms| - 1]) && RanThrough(prefix, i, ms[..|ms| - 1]))
            ==> RanThrough(prefix + [s], i, ms)
    ensures (RanThrough(prefix + [s], i, ms) && !(ms != [] && s.who == i && Reaches(s.what, ms[|ms| - 1])))
            ==> RanThrough(prefix, i, ms)
  {
    assert (prefix + [s])[..|prefix|] == prefix;
  }

  lemma AllStillRan(prefix: seq<Step>, s: Step, i: Inst)
    requires !(s.who == i && s.what.Boot?)
    ensures forall ms :: RanThrough(prefix, i, ms) ==> RanThrough(prefix + [s], i, ms)
    ensures RanThrough(prefix + [s], i, [Renamed]) ==>
              RanThrough(prefix, i, [Renamed]) || (s.who == i && s.what == Swap(1))
  {
    forall ms ensures RanThrough(prefix, i, ms) ==> RanThrough(prefix + [s], i, ms) {
      StillRan(prefix, s, i, ms);
    }
    StillRan(prefix, s, i, [Renamed]);
  }

  lemma Passes(prefix: seq<Step>, s: Step, i: Inst, before: seq<Milestone>, m: Milestone)
    requires s.who == i && Reaches(s.what, m) && RanThrough(prefix, i, before)
    ensures RanThrough(prefix + [s], i, before + [m])
  {
    assert (before + [m])[..|before|] == before;
    StillRan(prefix, s, i, before + [m]);
  }

  /** The steps of a running process, by the milestone they pass. */
  lemma KeyRemembers(prefix: seq<Step>, s: Step, i: Inst, run: Run, next: Run)
    requires s.who == i && Remembers(prefix, i, run)
    requires match s.what
             case AddKey => exists k :: next == run.(added := Some(k))
             case SaveAddition => run.added.Some? && next == run.(recorded := true)
             case SeeKey => run.recorded && next == run.(visible := true)
             case _ => false
    ensures Remembers(prefix + [s], i, next)
  {
    AllStillRan(prefix, s, i);
    match s.what {
      case AddKey => Passes(prefix, s, i, [], GotKey); assert [] + [GotKey] == ADDED;
      case SaveAddition => Passes(prefix, s, i, ADDED, WroteKey);
      case SeeKey => Passes(prefix, s, i, RECORDED, SawKey);
    }
  }

  lemma ProofRemembers(prefix: seq<Step>, s: Step, i: Inst, run: Run, next: Run)
    requires s.who == i && Remembers(prefix, i, run)
    requires match s.what
             case MintStaged =>
               && next == run.(minted := true)
               && (if run.job == Recovery then run.staged.Some? && !run.made else run.visible)
             case Prove(sent, recipient) =>
               run.minted && next == run.(proven := true) && (sent || (run.job == Recovery && !recipient))
             case _ => false
    ensures Remembers(prefix + [s], i, next)
  {
    AllStillRan(prefix, s, i);
    if s.what.MintStaged? {
      if run.job == Recovery {
        Passes(prefix, s, i, STANDBY_LOADED, Minted);
      } else {
        Passes(prefix, s, i, VISIBLE, Minted);
      }
    } else if run.job == Recovery {
      Passes(prefix, s, i, STANDBY_MINTED, Proved);
    } else if run.job == Rotation {
      Passes(prefix, s, i, MINTED, Accepted);
    }
  }

  lemma StandbyRemembers(prefix: seq<Step>, s: Step, i: Inst, run: Run, next: Run)
    requires s.who == i && Remembers(prefix, i, run)
    requires match s.what
             case LiveFaults => next == run.(liveFault := true)
             case LoadStandby => run.liveFault && exists g :: next == run.(staged := Some(g))
             case _ => false
    ensures Remembers(prefix + [s], i, next)
  {
    AllStillRan(prefix, s, i);
    if s.what.LiveFaults? {
      Passes(prefix, s, i, [], LiveFailed);
      assert [] + [LiveFailed] == LIVE_FAILED;
    } else {
      Passes(prefix, s, i, LIVE_FAILED, LoadedStandby);
    }
  }

  predicate Marks(e: Event) {
    e.AddKey? || e.SaveAddition? || e.SeeKey? || e.MintStaged? || e.Prove? || e.LiveFaults? || e.LoadStandby?
  }

  /** The remembered facts, apart from the count of renames. */
  predicate SameFacts(run: Run, next: Run) {
    && next.job == run.job && next.added == run.added && next.recorded == run.recorded
    && next.visible == run.visible && next.minted == run.minted && next.proven == run.proven
    && next.liveFault == run.liveFault && run.swap <= next.swap
    && (next.staged.Some? && !next.made ==> run.staged.Some? && !run.made)
  }

  /** The events that change the run without passing a milestone. */
  predicate Shifts(e: Event) {
    e.Load? || e.MakeCert? || e.MakeStandby? || e.OpenKey? || e.MoveLiveKey? || e.MoveLiveCert?
    || e.Swap? || e.TokenFresh? || e.LiveMints? || e.SaveFault?
  }

  lemma LoadFacts(u: World, d: Disk, run: Run, next: Run)
    requires next == RunAfter(u, d, run, Load)
    ensures SameFacts(run, next)
  {
    if d.liveKey.Holds? && d.liveCert.Holds? {
      assert next == run.(curKey := Some(d.liveKey.gen), cur := Some(d.liveCert.gen));
    } else {
      assert next == run;
    }
  }

  lemma MakeFacts(u: World, d: Disk, e: Event, run: Run, next: Run)
    requires (e.MakeCert? || e.MakeStandby?) && next == RunAfter(u, d, run, e)
    ensures SameFacts(run, next)
  {
    assert next == run.(staged := next.staged, made := true);
  }

  lemma ShiftFacts(u: World, d: Disk, e: Event, run: Run, next: Run)
    requires Shifts(e) && next == RunAfter(u, d, run, e)
    requires e.Swap? ==> e.n == run.swap + 1
    ensures SameFacts(run, next) && (e == Swap(1) ==> next.swap == 1)
  {
    match e {
      case Swap(n) => assert next == run.(swap := n);
      case TokenFresh => assert next == run.(liveOk := true);
      case LiveMints => assert next == run.(liveOk := true);
      case SaveFault(_) => assert next == run.(counted := true);
      case Load => LoadFacts(u, d, run, next);
      case OpenKey(_) => assert next == run.(begun := true);
      case MoveLiveKey => assert next == run.(moved := 1);
      case MoveLiveCert => assert next == run.(moved := 2);
      case _ => MakeFacts(u, d, e, run, next);
    }
  }

  lemma IdleFacts(u: World, d: Disk, e: Event, run: Run)
    requires !Marks(e) && !Shifts(e)
    ensures RunAfter(u, d, run, e) == run
  {
  }

  lemma QuietRemembers(prefix: seq<Step>, s: Step, i: Inst, run: Run, next: Run)
    requires s.who == i && Runs(s.what) && Remembers(prefix, i, run)
    requires SameFacts(run, next) && (s.what == Swap(1) ==> next.swap == 1)
    ensures Remembers(prefix + [s], i, next)
  {
    AllStillRan(prefix, s, i);
  }

  lemma FreshRemembers(prefix: seq<Step>, s: Step, i: Inst, run: Run)
    requires s.who == i && s.what.Boot? && run == NEW_RUN.(job := s.what.job)
    ensures Remembers(prefix + [s], i, run)
  {
    assert (prefix + [s])[..|prefix|] == prefix;
  }

  predicate MindOk(trace: seq<Step>, i: Inst, mem: Mem) {
    mem.Busy? ==> Remembers(trace, i, mem.run)
  }

  lemma MarkRemembers(prefix: seq<Step>, u: World, s: Step, i: Inst, run: Run, next: Run)
    requires Marks(s.what)
    requires s.who == i && i in u.relays && EnabledRun(u, i, u.relays[i], run, s.what)
    requires next == RunAfter(u, u.relays[i].disk, run, s.what)
    requires Remembers(prefix, i, run)
    ensures Remembers(prefix + [s], i, next)
  {
    match s.what {
      case MintStaged => ProofRemembers(prefix, s, i, run, next);
      case Prove(_, _) => ProofRemembers(prefix, s, i, run, next);
      case LiveFaults => StandbyRemembers(prefix, s, i, run, next);
      case LoadStandby =>
        assert next == run.(staged := Some(u.relays[i].disk.recCert.gen));
        StandbyRemembers(prefix, s, i, run, next);
      case AddKey =>
        assert next == run.(added := Some(|u.keys|));
        KeyRemembers(prefix, s, i, run, next);
      case SaveAddition => KeyRemembers(prefix, s, i, run, next);
      case SeeKey => KeyRemembers(prefix, s, i, run, next);
    }
  }

  lemma UnmarkedFacts(u: World, i: Inst, e: Event, run: Run, next: Run)
    requires i in u.relays && EnabledRun(u, i, u.relays[i], run, e) && !Marks(e)
    requires next == RunAfter(u, u.relays[i].disk, run, e)
    ensures SameFacts(run, next) && (e == Swap(1) ==> next.swap == 1)
  {
    if Shifts(e) {
      ShiftFacts(u, u.relays[i].disk, e, run, next);
    } else {
      IdleFacts(u, u.relays[i].disk, e, run);
    }
  }

  lemma ActingRemembers(prefix: seq<Step>, u: World, s: Step, i: Inst, run: Run, next: Run)
    requires Runs(s.what)
    requires s.who == i && i in u.relays && EnabledRun(u, i, u.relays[i], run, s.what)
    requires next == RunAfter(u, u.relays[i].disk, run, s.what)
    requires Remembers(prefix, i, run)
    ensures Remembers(prefix + [s], i, next)
  {
    if Marks(s.what) {
      MarkRemembers(prefix, u, s, i, run, next);
    } else {
      UnmarkedFacts(u, i, s.what, run, next);
      QuietRemembers(prefix, s, i, run, next);
    }
  }

  lemma StepRemembers(prefix: seq<Step>, u: World, s: Step, w: World, i: Inst)
    requires Next(u, s.who, s.what) == Some(w) && i in u.relays && i in w.relays
    requires MindOk(prefix, i, u.relays[i].mem)
    ensures MindOk(prefix + [s], i, w.relays[i].mem)
  {
    if s.who == i && s.what.Boot? {
      FreshRemembers(prefix, s, i, w.relays[i].mem.run);
    } else if s.who == i && Runs(s.what) {
      if w.relays[i].mem.Busy? {
        ActingRemembers(prefix, u, s, i, u.relays[i].mem.run, w.relays[i].mem.run);
      }
    } else {
      AllStillRan(prefix, s, i);
      assert w.relays[i].mem == u.relays[i].mem;
    }
  }

  lemma {:induction false} AlwaysRemembers(w0: World, trace: seq<Step>, w: World, i: Inst)
    requires Start(w0) && After(w0, trace) == Some(w) && i in w.relays
    ensures MindOk(trace, i, w.relays[i].mem)
  {
    if trace == [] {
      assert FirstBoot(w0, i, w0.relays[i]);
    } else {
      var n := |trace| - 1;
      var u, s := After(w0, trace[..n]).value, trace[n];
      assert trace[..n] + [s] == trace;
      FrameOf(u, w, s.who, s.what);
      AlwaysRemembers(w0, trace[..n], u, i);
      StepRemembers(trace[..n], u, s, w, i);
    }
  }

  function LivePair(d: Disk): (Slot, Slot) {
    (d.liveKey, d.liveCert)
  }

  /** Outside a reset or an operator's roll back, the live pair changes only by a
      rename, and only after this same run saw, in this order, addKey succeed and
      be recorded, the key in a read, a token from it and its proof accepted -- or,
      in recovery, the live pair fail, the standby mint and its proof settled. */
  lemma LiveChangesOnlyAfterProof(w0: World, trace: seq<Step>, w: World, i: Inst, e: Event, v: World)
    requires Start(w0) && After(w0, trace) == Some(w) && Next(w, i, e) == Some(v)
    requires LivePair(v.relays[i].disk) != LivePair(w.relays[i].disk)
    requires !e.RollBack? && !(w.relays[i].mem.Busy? && w.relays[i].mem.run.job == Reset)
    ensures e.Swap?
    ensures RanThrough(trace, i, PROVEN) || RanThrough(trace, i, STANDBY_PROVEN)
    ensures w.relays[i].mem.run.job == Rotation ==> RanThrough(trace, i, PROVEN)
    ensures w.relays[i].mem.run.job == Recovery ==> RanThrough(trace, i, STANDBY_PROVEN)
  {
    LiveChangesBySwap(w, i, e, v);
    AlwaysRemembers(w0, trace, w, i);
  }

  lemma LiveChangesBySwap(w: World, i: Inst, e: Event, v: World)
    requires Next(w, i, e) == Some(v)
    requires LivePair(v.relays[i].disk) != LivePair(w.relays[i].disk)
    requires !e.RollBack? && !(w.relays[i].mem.Busy? && w.relays[i].mem.run.job == Reset)
    ensures e.Swap? && w.relays[i].mem.Busy? && w.relays[i].mem.run.proven
    ensures w.relays[i].mem.run.job == Rotation || w.relays[i].mem.run.job == Recovery
  {
  }

  /** The run that began replacing the live pair removes no key afterwards. */
  lemma NoRemovalAfterSwap(w0: World, trace: seq<Step>, w: World, i: Inst, k: KeyId, why: Reason, hit: bool)
    requires Start(w0) && After(w0, trace) == Some(w)
    requires RanThrough(trace, i, [Renamed])
    ensures Next(w, i, PostRemove(k, why, hit)) == None
  {
    if Next(w, i, PostRemove(k, why, hit)).Some? {
      AlwaysRemembers(w0, trace, w, i);
    }
  }

  // ------------------------------------------------------------ recovery's gates

  predicate Settles(e: Event) {
    e.SaveDiscard? || e.SaveRecovered?
  }

  /** Certificate-fault passes since the last healthy pass. */
  function FaultRun(trace: seq<Step>, i: Inst): nat {
    if trace == [] then 0
    else
      var n := |trace| - 1;
      var s := trace[n];
      if s.who != i then FaultRun(trace[..n], i)
      else if s.what.SaveFault? then FaultRun(trace[..n], i) + 1
      else if s.what.SaveHealthy? || Settles(s.what) then 0
      else FaultRun(trace[..n], i)
  }

  /** Healthy passes since the last certificate fault; one that settles a standby,
      and the clean state after first boot, count as two. */
  function CalmRun(trace: seq<Step>, i: Inst): nat {
    if trace == [] then 2
    else
      var n := |trace| - 1;
      var s := trace[n];
      if s.who != i then CalmRun(trace[..n], i)
      else if s.what.SaveFault? then 0
      else if s.what.SaveHealthy? then CalmRun(trace[..n], i) + 1
      else if Settles(s.what) then CalmRun(trace[..n], i) + 2
      else CalmRun(trace[..n], i)
  }

  /** The position of the first fault of the current fault run, and the number of
      healthy passes just before it. */
  function FirstFault(trace: seq<Step>, i: Inst): (r: Option<nat>)
    ensures r.Some? ==> r.value < |trace| && trace[r.value].what.SaveFault?
  {
    if trace == [] then None
    else
      var n := |trace| - 1;
      var s := trace[n];
      if s.who != i then FirstFault(trace[..n], i)
      else if s.what.SaveFault? then
        if FaultRun(trace[..n], i) == 0 then Some(n) else FirstFault(trace[..n], i)
      else if s.what.SaveHealthy? || Settles(s.what) then None
      else FirstFault(trace[..n], i)
  }

  function CalmBefore(trace: seq<Step>, i: Inst): nat {
    if trace == [] then 0
    else
      var n := |trace| - 1;
      var s := trace[n];
      if s.who == i && s.what.SaveFault? && FaultRun(trace[..n], i) == 0 then CalmRun(trace[..n], i)
      else CalmBefore(trace[..n], i)
  }

  /** The fault whose time the state file keeps: the first one after the last
      *second* healthy pass in a row. */
  function ClockStart(trace: seq<Step>, i: Inst): (r: Option<nat>)
    ensures r.Some? ==> r.value < |trace| && trace[r.value].what.SaveFault?
  {
    if trace == [] then None
    else
      var n := |trace| - 1;
      var s := trace[n];
      var c := ClockStart(trace[..n], i);
      if s.who != i then c
      else if s.what.SaveFault? then if c.None? then Some(n) else c
      else if s.what.SaveHealthy? then if FaultRun(trace[..n], i) == 0 then None else c
      else if Settles(s.what) then None
      else c
  }

  /** The two gate fields are these functions of the history. */
  predicate GatesAre(trace: seq<Step>, i: Inst, s: Saved) {
    && s.streak == (if FaultRun(trace, i) == 0 then None else Some(FaultRun(trace, i)))
    && (s.since.Some? <==> ClockStart(trace, i).Some?)
    && (s.since.Some? ==>
          s.since.value == trace[ClockStart(trace, i).value].what.now && s.since.value > 0)
  }

  lemma SavedGates(prefix: seq<Step>, s: Step, i: Inst, mem: Mem, before: Saved, after: Saved)
    requires if s.who == i then after == SavedAfter(before, mem, s.what) else after == before
    requires s.who == i && s.what.SaveFault? ==> s.what.now > 0
    requires s.who == i && s.what.SaveRecovered? ==> mem.Busy? && mem.run.cur.Some?
    requires GatesAre(prefix, i, before)
    ensures GatesAre(prefix + [s], i, after)
  {
    assert (prefix + [s])[..|prefix|] == prefix;
  }

  lemma GateStep(prefix: seq<Step>, u: World, s: Step, w: World, i: Inst)
    requires Next(u, s.who, s.what) == Some(w) && i in u.relays && i in w.relays
    requires GatesAre(prefix, i, u.relays[i].saved)
    ensures GatesAre(prefix + [s], i, w.relays[i].saved)
  {
    SavedGates(prefix, s, i, u.relays[i].mem, u.relays[i].saved, w.relays[i].saved);
  }

  /** Over every history the streak counts the faults since the last healthy pass,
      and the clock runs from ClockStart; no other event moves either. */
  lemma {:induction false} GatesFollowHistory(w0: World, trace: seq<Step>, w: World, i: Inst)
    requires Start(w0) && After(w0, trace) == Some(w) && i in w.relays
    ensures GatesAre(trace, i, w.relays[i].saved)
  {
    if trace == [] {
      assert FirstBoot(w0, i, w0.relays[i]);
    } else {
      var n := |trace| - 1;
      var u, s := After(w0, trace[..n]).value, trace[n];
      assert trace[..n] + [s] == trace;
      FrameOf(u, w, s.who, s.what);
      GatesFollowHistory(w0, trace[..n], u, i);
      GateStep(trace[..n], u, s, w, i);
    }
  }

  lemma {:induction false} CalmMeansNoFaults(trace: seq<Step>, i: Inst)
    ensures CalmRun(trace, i) == 0 <==> FaultRun(trace, i) > 0
    ensures FaultRun(trace, i) > 0 <==> FirstFault(trace, i).Some?
    ensures CalmRun(trace, i) >= 2 ==> ClockStart(trace, i) == None
    ensures CalmRun(trace, i) == 1 ==> ClockStart(trace, i).Some?
    ensures FaultRun(trace, i) > 0 ==> ClockStart(trace, i).Some?
  {
    if trace != [] {
      CalmMeansNoFaults(trace[..|trace| - 1], i);
    }
  }

  /** The clock starts at the first fault of the run exactly when at least two
      healthy passes came just before that fault; otherwise it is older. */
  lemma {:induction false} ClockIsFirstFault(trace: seq<Step>, i: Inst)
    requires FaultRun(trace, i) > 0
    ensures ClockStart(trace, i).Some? && FirstFault(trace, i).Some?
    ensures ClockStart(trace, i) == FirstFault(trace, i) <==> CalmBefore(trace, i) >= 2
    ensures ClockStart(trace, i).value <= FirstFault(trace, i).value
  {
    var n := |trace| - 1;
    CalmMeansNoFaults(trace, i);
    CalmMeansNoFaults(trace[..n], i);
    if FaultRun(trace[..n], i) > 0 {
      ClockIsFirstFault(trace[..n], i);
    }
  }

  /** A standby is generated only after enough certificate faults since the last
      healthy pass, and enough seconds after the first of them if two healthy
      passes came before it. */
  lemma StandbyIsEarned(w0: World, trace: seq<Step>, w: World, i: Inst, now: int, needStreak: int, needSeconds: int)
    requires Start(w0) && After(w0, trace) == Some(w)
    requires Next(w, i, MakeStandby(now, needStreak, needSeconds)).Some?
    ensures FaultRun(trace, i) >= 1 && FaultRun(trace, i) >= needStreak
    ensures ClockStart(trace, i).Some? && now - trace[ClockStart(trace, i).value].what.now >= needSeconds
    ensures CalmBefore(trace, i) >= 2 ==>
              && FirstFault(trace, i).Some?
              && now - trace[FirstFault(trace, i).value].what.now >= needSeconds
    ensures RanThrough(trace, i, LIVE_FAILED)
  {
    GatesFollowHistory(w0, trace, w, i);
    ClockIsFirstFault(trace, i);
    AlwaysRemembers(w0, trace, w, i);
  }

  /** And it is not withheld: a process that has counted its fault, with no standby yet,
      may generate one exactly when the run of faults and the time are long enough. */
  lemma StandbyIsDueExactly(w0: World, trace: seq<Step>, w: World, i: Inst, now: int, needStreak: int,
                            needSeconds: int)
    requires Start(w0) && After(w0, trace) == Some(w)
    requires i in w.relays && w.relays[i].mem.Busy? && w.relays[i].saved.recovery.None?
    requires var run := w.relays[i].mem.run;
             run.job == Recovery && run.liveFault && run.counted && run.staged.None? && run.swap == 0
    ensures Next(w, i, MakeStandby(now, needStreak, needSeconds)).Some? <==>
              && FaultRun(trace, i) >= 1 && FaultRun(trace, i) >= needStreak
              && ClockStart(trace, i).Some? && now - trace[ClockStart(trace, i).value].what.now >= needSeconds
  {
    GatesFollowHistory(w0, trace, w, i);
    CalmMeansNoFaults(trace, i);
  }
}
