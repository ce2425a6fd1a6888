/** What a reset shows, from the files it started with. */
module RelayReset {
  import opened Common
  import opened RelayWorld
  import opened RelayInvariant

  /** Both live files were there, so a reset moves them aside. */
  predicate Whole(d: Disk) {
    !d.liveKey.Absent? && !d.liveCert.Absent?
  }

  /** The live certificate that a reset finds when it begins to write. */
  function Left(d: Disk, run: Run): Slot {
    if run.moved == 0 then d.liveCert else Absent
  }

  /** How far the reset that started with files d has come. */
  predicate ResetShape(d: Disk, now: Disk, run: Run) {
    && run.job == Reset && run.moved <= 2
    && (run.moved > 0 ==> Whole(d))
    && (run.staged.Some? ==> run.moved != 1 && d.liveCert != StagedSlot(run))
    && if !run.begun then
         && now.liveKey == (if run.moved == 0 then d.liveKey else Absent)
         && now.liveCert == (if run.moved < 2 then d.liveCert else Absent)
       else
         && run.staged.Some? && (run.moved == 0 ==> !Whole(d))
         && (now.liveKey == StagedSlot(run) || (now.liveKey == Partial && now.liveCert == Left(d, run)))
         && (now.liveCert == Left(d, run) || now.liveCert == Partial || now.liveCert == StagedSlot(run))
  }

  predicate SameReset(run: Run, next: Run) {
    next.job == run.job && next.moved == run.moved && next.begun == run.begun && next.staged == run.staged
  }

  /** The events by which a reset changes the live files or its own progress. */
  predicate ResetActs(e: Event) {
    e.MakeCert? || e.OpenKey? || e.WriteKey? || e.OpenCert? || e.WriteCert? || e.MoveLiveKey? || e.MoveLiveCert?
  }

  lemma ActKeepsShape(d: Disk, w: World, i: Inst, r: Relay, e: Event, t: Relay)
    requires r.mem.Busy? && ResetShape(d, r.disk, r.mem.run) && ResetActs(e)
    requires EnabledRun(w, i, r, r.mem.run, e) && t == RelayAfter(w, r, e)
    requires d.liveCert != Holds(|w.certs|)
    ensures t.mem.Busy? && ResetShape(d, t.disk, t.mem.run)
  {
    match e
    case MakeCert => assert t.mem.run == r.mem.run.(staged := Some(|w.certs|), made := true);
    case OpenKey(a) => assert t.mem.run == r.mem.run.(begun := true);
    case WriteKey(a) => assert t.mem.run == r.mem.run;
    case OpenCert(a) => assert t.mem.run == r.mem.run;
    case WriteCert(a) => assert t.mem.run == r.mem.run;
    case MoveLiveKey => assert t.mem.run == r.mem.run.(moved := 1);
    case MoveLiveCert => assert t.mem.run == r.mem.run.(moved := 2);
  }

  lemma QuietKeepsShape(d: Disk, w: World, i: Inst, r: Relay, e: Event, t: Relay)
    requires r.mem.Busy? && ResetShape(d, r.disk, r.mem.run) && Runs(e) && !ResetActs(e)
    requires EnabledRun(w, i, r, r.mem.run, e) && t == RelayAfter(w, r, e)
    ensures t.mem.Busy? ==> ResetShape(d, t.disk, t.mem.run)
  {
    QuietFiles(r, e);
    QuietRun(w, i, r, r.mem.run, e);
  }

  lemma QuietFiles(r: Relay, e: Event)
    requires r.mem.Busy? && r.mem.run.job == Reset && Runs(e) && !ResetActs(e) && !e.Swap?
    ensures e.DropKey? || e.DropCert? || DiskAfter(r.disk, r.mem, e) == r.disk
  {
  }

  lemma QuietRun(w: World, i: Inst, r: Relay, run: Run, e: Event)
    requires run.job == Reset && Runs(e) && !ResetActs(e) && EnabledRun(w, i, r, run, e)
    ensures SameReset(run, RunAfter(w, r.disk, run, e))
  {
  }

  /** No other process of the instance starts meanwhile. */
  predicate SameProcess(rest: seq<Step>, i: Inst) {
    forall k | 0 <= k < |rest| :: rest[k].who == i ==> !rest[k].what.Boot?
  }

  /** What is known of instance i while its reset, started with files d, may run. */
  predicate InShape(d: Disk, w: World, i: Inst) {
    && i in w.relays && (d.liveCert.Holds? ==> d.liveCert.gen < |w.certs|)
    && (w.relays[i].mem.Busy? ==> ResetShape(d, w.relays[i].disk, w.relays[i].mem.run))
  }

  lemma RunningKeepsShape(d: Disk, u: World, i: Inst, e: Event, r: Relay, t: Relay)
    requires r.mem.Busy? && ResetShape(d, r.disk, r.mem.run) && d.liveCert != Holds(|u.certs|)
    requires Runs(e) && EnabledRun(u, i, r, r.mem.run, e) && t == RelayAfter(u, r, e)
    ensures t.mem.Busy? ==> ResetShape(d, t.disk, t.mem.run)
  {
    if ResetActs(e) {
      ActKeepsShape(d, u, i, r, e, t);
    } else {
      QuietKeepsShape(d, u, i, r, e, t);
    }
  }

  lemma DeathIsIdle(u: World, r: Relay, t: Relay)
    requires t == RelayAfter(u, r, Die)
    ensures t.mem.Idle?
  {
  }

  lemma OutsideIsIdle(u: World, i: Inst, e: Event, v: World)
    requires Next(u, i, e) == Some(v) && !Runs(e) && !e.Boot?
    ensures i in u.relays && v.relays == u.relays[i := v.relays[i]] && v.relays[i].mem == u.relays[i].mem
    ensures u.relays[i].mem.Busy? ==> v.relays[i].disk == u.relays[i].disk
  {
  }

  lemma RunningIsEnabled(u: World, i: Inst, e: Event, v: World)
    requires Next(u, i, e) == Some(v) && Runs(e) && e != Die
    ensures i in u.relays && u.relays[i].mem.Busy?
    ensures EnabledRun(u, i, u.relays[i], u.relays[i].mem.run, e)
  {
  }

  lemma OwnStepKeepsShape(d: Disk, u: World, i: Inst, e: Event, v: World)
    requires InShape(d, u, i) && Next(u, i, e) == Some(v) && !e.Boot?
    ensures i in v.relays
    ensures v.relays[i].mem.Busy? ==> ResetShape(d, v.relays[i].disk, v.relays[i].mem.run)
  {
    FrameOf(u, v, i, e);
    if e == Die {
      DeathIsIdle(u, u.relays[i], v.relays[i]);
    } else if Runs(e) {
      RunningIsEnabled(u, i, e, v);
      RunningKeepsShape(d, u, i, e, u.relays[i], v.relays[i]);
    } else {
      OutsideIsIdle(u, i, e, v);
    }
  }

  lemma StepKeepsShape(d: Disk, u: World, s: Step, v: World, i: Inst)
    requires InShape(d, u, i) && Next(u, s.who, s.what) == Some(v) && (s.who == i ==> !s.what.Boot?)
    ensures InShape(d, v, i)
  {
    FrameOf(u, v, s.who, s.what);
    assert |u.certs| <= |v.certs|;
    if s.who == i {
      OwnStepKeepsShape(d, u, i, s.what, v);
    } else {
      assert v.relays[i] == u.relays[i];
    }
  }

  lemma BootTakesShape(b: World, i: Inst, started: World)
    requires Inv(b) && Next(b, i, Boot(Reset)) == Some(started)
    ensures InShape(b.relays[i].disk, started, i)
  {
    assert RelayOk(b, i, b.relays[i]);
    FrameOf(b, started, i, Boot(Reset));
  }

  /** While the process lives, what it has done to the files it started with. */
  lemma {:induction false} ResetFollowsShape(b: World, i: Inst, started: World, rest: seq<Step>, u: World)
    requires Inv(b) && Next(b, i, Boot(Reset)) == Some(started)
    requires After(started, rest) == Some(u) && SameProcess(rest, i)
    ensures i in b.relays && InShape(b.relays[i].disk, u, i)
    decreases |rest|
  {
    if rest == [] {
      BootTakesShape(b, i, started);
    } else {
      var n := |rest| - 1;
      var before := After(started, rest[..n]).value;
      ResetFollowsShape(b, i, started, rest[..n], before);
      StepKeepsShape(b.relays[i].disk, before, rest[n], u, i);
    }
  }

  /** A certificate without its key. */
  predicate LoneCert(d: Disk) {
    d.liveKey.Absent? && d.liveCert.Holds?
  }

  lemma KeyWritten(d: Disk, u: World, i: Inst, v: World)
    requires InShape(d, u, i) && Next(u, i, WriteKey(Live)) == Some(v)
    ensures i in v.relays && (!Paired(v.relays[i].disk) <==> LoneCert(d))
    ensures Next(v, i, Die).Some? && Next(v, i, Die).value.relays[i].disk == v.relays[i].disk
  {
    FrameOf(u, v, i, WriteKey(Live));
    var r := u.relays[i];
    assert r.disk.liveKey.Partial? && r.disk.liveCert == Left(d, r.mem.run);
    assert v.relays[i].disk == r.disk.(liveKey := StagedSlot(r.mem.run));
    FrameOf(v, Apply(v, i, Die), i, Die);
  }

  /** Whatever else happens meanwhile, a reset that gets as far as writing its key
      shows a mixed live pair then exactly when it started beside a certificate
      without a key; and a death there leaves the pair as it is. */
  lemma ResetMixesExactly(w0: World, trace: seq<Step>, b: World, i: Inst, started: World,
                          rest: seq<Step>, u: World, v: World)
    requires Start(w0) && After(w0, trace) == Some(b) && Next(b, i, Boot(Reset)) == Some(started)
    requires After(started, rest) == Some(u) && SameProcess(rest, i) && Next(u, i, WriteKey(Live)) == Some(v)
    ensures i in b.relays && i in v.relays
    ensures !Paired(v.relays[i].disk) <==> LoneCert(b.relays[i].disk)
    ensures Next(v, i, Die).Some? && Next(v, i, Die).value.relays[i].disk == v.relays[i].disk
  {
    AlwaysInv(w0, trace, b);
    ResetFollowsShape(b, i, started, rest, u);
    KeyWritten(b.relays[i].disk, u, i, v);
  }

  /** And only from there: at any moment of a reset that began with a sound pair, a
      mixed pair means the new key is written and the lone certificate not yet. */
  lemma MixedOnlyByReset(w0: World, trace: seq<Step>, b: World, i: Inst, started: World, rest: seq<Step>, u: World)
    requires Start(w0) && After(w0, trace) == Some(b) && Next(b, i, Boot(Reset)) == Some(started)
    requires After(started, rest) == Some(u) && SameProcess(rest, i)
    requires Paired(b.relays[i].disk) && i in u.relays && u.relays[i].mem.Busy? && !Paired(u.relays[i].disk)
    ensures LoneCert(b.relays[i].disk)
    ensures u.relays[i].disk.liveCert == b.relays[i].disk.liveCert
    ensures u.relays[i].mem.run.begun && u.relays[i].disk.liveKey == StagedSlot(u.relays[i].mem.run)
  {
    AlwaysInv(w0, trace, b);
    ResetFollowsShape(b, i, started, rest, u);
  }
}
