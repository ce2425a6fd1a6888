/** What the next runs of an instance can and cannot do with what a death left. */
module RelayRuns {
  import opened Common
  import opened RelayWorld
  import opened RelayInvariant
  import opened RelaySafety

  /** Instance i can perform these events one after the other, and v is where it ends. */
  predicate Plays(w: World, i: Inst, es: seq<Event>, v: World) {
    After(w, seq(|es|, k requires 0 <= k < |es| => Step(i, es[k]))) == Some(v)
  }

  lemma PlayOne(w: World, i: Inst, es: seq<Event>, u: World, e: Event, v: World)
    requires Plays(w, i, es, u) && Next(u, i, e) == Some(v)
    ensures Plays(w, i, es + [e], v)
  {
    var longer := es + [e];
    var steps := seq(|es|, k requires 0 <= k < |es| => Step(i, es[k]));
    AfterAppend(w, steps, Step(i, e));
    assert seq(|longer|, k requires 0 <= k < |longer| => Step(i, longer[k])) == steps + [Step(i, e)];
  }

  // ------------------------------------------------------------------ healing

  /** The events of a recovery pass after a death, when the live pair mints while a
      standby is on record. */
  const HEALING :=
    [] + [Die] + [Boot(Recovery)] + [Load] + [LiveMints] + [DropKey(Rec)] + [DropCert(Rec)] + [SaveDiscard]

  /** A death after the fourth rename of an adoption and before its state write: the
      standby is live and whole, and the next pass whose live pair mints brings the
      state file back in line and keeps the live pair. */
  lemma AdoptionHeals(w0: World, trace: seq<Step>, w: World, i: Inst, run: Run) returns (v: World)
    requires Start(w0) && After(w0, trace) == Some(w)
    requires i in w.relays && w.relays[i].mem.Busy? && w.relays[i].mem.run == run
    requires run.job == Recovery && run.swap == 4 && w.relays[i].saved.recovery.Some?
    ensures run.staged.Some?
    ensures w.relays[i].disk.liveKey == w.relays[i].disk.liveCert == Holds(run.staged.value)
    ensures Plays(w, i, HEALING, v) && i in v.relays
    ensures v.relays[i].disk == w.relays[i].disk.(recKey := Absent, recCert := Absent)
    ensures v.relays[i].saved == w.relays[i].saved.(recovery := None, streak := None, since := None)
  {
    AlwaysInv(w0, trace, w);
    assert RelayOk(w, i, w.relays[i]);
    var loaded := Loads(w, i, Recovery);
    v := Discards(loaded, i);
    PlayOne(w, i, [] + [Die] + [Boot(Recovery)] + [Load], loaded, LiveMints, Apply(loaded, i, LiveMints));
    var w4 := Apply(loaded, i, LiveMints);
    var w5 := Apply(w4, i, DropKey(Rec));
    var w6 := Apply(w5, i, DropCert(Rec));
    PlayOne(w, i, [] + [Die] + [Boot(Recovery)] + [Load] + [LiveMints], w4, DropKey(Rec), w5);
    PlayOne(w, i, [] + [Die] + [Boot(Recovery)] + [Load] + [LiveMints] + [DropKey(Rec)], w5, DropCert(Rec), w6);
    PlayOne(w, i, [] + [Die] + [Boot(Recovery)] + [Load] + [LiveMints] + [DropKey(Rec)] + [DropCert(Rec)], w6,
            SaveDiscard, v);
  }

  lemma Loads(w: World, i: Inst, job: Job) returns (v: World)
    requires i in w.relays && w.relays[i].mem.Busy? && job != Reset
    requires w.relays[i].disk.liveKey.Holds? && w.relays[i].disk.liveCert.Holds?
    ensures Plays(w, i, [] + [Die] + [Boot(job)] + [Load], v)
    ensures i in v.relays && v.relays[i].disk == w.relays[i].disk && v.relays[i].saved == w.relays[i].saved
    ensures v.relays[i].mem.Busy?
    ensures v.relays[i].mem.run == NEW_RUN.(job := job, curKey := Some(w.relays[i].disk.liveKey.gen),
                                            cur := Some(w.relays[i].disk.liveCert.gen))
  {
    var w1 := Apply(w, i, Die);
    var w2 := Apply(w1, i, Boot(job));
    v := Apply(w2, i, Load);
    PlayOne(w, i, [], w, Die, w1);
    PlayOne(w, i, [] + [Die], w1, Boot(job), w2);
    PlayOne(w, i, [] + [Die] + [Boot(job)], w2, Load, v);
  }

  lemma Discards(w: World, i: Inst) returns (v: World)
    requires i in w.relays && w.relays[i].mem.Busy? && w.relays[i].saved.recovery.Some?
    requires w.relays[i].mem.run.job == Recovery && w.relays[i].mem.run.cur.Some?
    requires !w.relays[i].mem.run.liveFault && w.relays[i].mem.run.swap == 0
    ensures var w4 := Apply(w, i, LiveMints);
            var w5 := Apply(w4, i, DropKey(Rec));
            var w6 := Apply(w5, i, DropCert(Rec));
            && Next(w, i, LiveMints) == Some(w4) && Next(w4, i, DropKey(Rec)) == Some(w5)
            && Next(w5, i, DropCert(Rec)) == Some(w6) && Next(w6, i, SaveDiscard) == Some(v)
    ensures i in v.relays && v.relays[i].disk == w.relays[i].disk.(recKey := Absent, recCert := Absent)
    ensures v.relays[i].saved == w.relays[i].saved.(recovery := None, streak := None, since := None)
  {
    var w4 := Apply(w, i, LiveMints);
    assert w4.relays[i].mem.run == w.relays[i].mem.run.(liveOk := true);
    var w5 := Apply(w4, i, DropKey(Rec));
    assert w5.relays[i].mem.run == w4.relays[i].mem.run;
    var w6 := Apply(w5, i, DropCert(Rec));
    assert w6.relays[i].mem.run == w4.relays[i].mem.run;
    v := Apply(w6, i, SaveDiscard);
  }

  /** A death after the fourth rename of a rotation and before its state write: the
      next rotation finds the recorded addition live and clears it. */
  lemma RotationHeals(w0: World, trace: seq<Step>, w: World, i: Inst, run: Run) returns (v: World)
    requires Start(w0) && After(w0, trace) == Some(w)
    requires i in w.relays && w.relays[i].mem.Busy? && w.relays[i].mem.run == run
    requires run.job == Rotation && run.swap == 4 && w.relays[i].saved.addition.Some?
    ensures run.staged.Some? && w.relays[i].saved.addition.value.thumb == run.staged.value
    ensures w.relays[i].disk.liveKey == w.relays[i].disk.liveCert == Holds(run.staged.value)
    ensures Plays(w, i, [] + [Die] + [Boot(Rotation)] + [Load] + [ClearLive], v) && i in v.relays
    ensures v.relays[i].disk == w.relays[i].disk
    ensures v.relays[i].saved == w.relays[i].saved.(addition := None)
  {
    AlwaysInv(w0, trace, w);
    assert RelayOk(w, i, w.relays[i]);
    var loaded := Loads(w, i, Rotation);
    v := Apply(loaded, i, ClearLive);
    PlayOne(w, i, [] + [Die] + [Boot(Rotation)] + [Load], loaded, ClearLive, v);
  }

  // ----------------------------------------------------------------- stranded

  /** Both live files are there and complete. */
  predicate Whole(d: Disk) {
    d.liveKey.Holds? && d.liveCert.Holds?
  }

  predicate SameLive(d: Disk, e: Disk) {
    d.liveKey == e.liveKey && d.liveCert == e.liveCert
  }

  /** The start of a reset, or the operator's roll back. */
  predicate ByHand(e: Event) {
    e == Boot(Reset) || e.RollBack?
  }

  predicate NoHand(trace: seq<Step>, i: Inst) {
    forall k | 0 <= k < |trace| && trace[k].who == i :: !ByHand(trace[k].what)
  }

  /** No process runs, or one that could not load the live pair d. */
  predicate Stranded(d: Disk, r: Relay) {
    && !Whole(d) && SameLive(d, r.disk)
    && (r.mem.Busy? ==> r.mem.run.job != Reset && r.mem.run.cur.None? && r.mem.run.swap == 0)
  }

  lemma RunStaysStranded(d: Disk, u: World, i: Inst, r: Relay, e: Event, t: Relay)
    requires Stranded(d, r) && r.mem.Busy? && EnabledRun(u, i, r, r.mem.run, e) && Runs(e) && t == RelayAfter(u, r, e)
    ensures Stranded(d, t)
  {
    OutOfReach(u, i, r, r.mem.run, e);
    FilesStay(r, e);
    MemStays(u, r, e);
  }

  lemma MemStays(u: World, r: Relay, e: Event)
    requires r.mem.Busy? && Runs(e) && !e.Load? && !e.Swap?
    ensures var m := MemAfter(u, r.disk, r.mem, e);
            m.Busy? ==> m.run.job == r.mem.run.job && m.run.cur == r.mem.run.cur && m.run.swap == r.mem.run.swap
  {
  }

  lemma OutOfReach(u: World, i: Inst, r: Relay, run: Run, e: Event)
    requires run.job != Reset && run.cur.None? && run.swap == 0 && !Whole(r.disk) && EnabledRun(u, i, r, run, e)
    ensures !e.Load? && !e.Swap? && !e.MoveLiveKey? && !e.MoveLiveCert?
    ensures (e.OpenKey? || e.WriteKey? || e.OpenCert? || e.WriteCert? || e.DropKey? || e.DropCert?) ==> !e.area.Live?
  {
  }

  /** Only a reset and a swap change the live files. */
  lemma FilesStay(r: Relay, e: Event)
    requires r.mem.Busy? && !e.Swap? && !e.RollBack? && !e.MoveLiveKey? && !e.MoveLiveCert?
    requires (e.OpenKey? || e.WriteKey? || e.OpenCert? || e.WriteCert? || e.DropKey? || e.DropCert?) ==> !e.area.Live?
    ensures SameLive(r.disk, DiskAfter(r.disk, r.mem, e))
  {
  }

  lemma StepStaysStranded(d: Disk, u: World, s: Step, v: World, i: Inst)
    requires i in u.relays && Stranded(d, u.relays[i]) && Next(u, s.who, s.what) == Some(v)
    requires s.who == i ==> !ByHand(s.what)
    ensures i in v.relays && Stranded(d, v.relays[i])
  {
    FrameOf(u, v, s.who, s.what);
    if s.who == i && Runs(s.what) && s.what != Die {
      RunStaysStranded(d, u, i, u.relays[i], s.what, v.relays[i]);
    }
  }

  lemma {:induction false} StaysStranded(w: World, rest: seq<Step>, u: World, i: Inst)
    requires i in w.relays && Stranded(w.relays[i].disk, w.relays[i])
    requires After(w, rest) == Some(u) && NoHand(rest, i)
    ensures i in u.relays && Stranded(w.relays[i].disk, u.relays[i])
    decreases |rest|
  {
    if rest != [] {
      var n := |rest| - 1;
      var v := After(w, rest[..n]).value;
      StaysStranded(w, rest[..n], v, i);
      StepStaysStranded(w.relays[i].disk, v, rest[n], u, i);
    }
  }

  /** An incomplete live pair at rest stays exactly as it is, whatever runs: only the
      start of a reset or an operator's roll back changes it. */
  lemma IncompleteStays(w: World, rest: seq<Step>, u: World, i: Inst)
    requires i in w.relays && w.relays[i].mem.Idle? && !Whole(w.relays[i].disk)
    requires After(w, rest) == Some(u) && NoHand(rest, i)
    ensures i in u.relays && SameLive(w.relays[i].disk, u.relays[i].disk)
  {
    StaysStranded(w, rest, u, i);
  }

  /** Some history without a hand in it ends with a whole live pair. */
  ghost predicate Recovers(w: World, i: Inst) {
    exists rest: seq<Step> :: RecoversBy(w, rest, i)
  }

  predicate RecoversBy(w: World, rest: seq<Step>, i: Inst) {
    var u := After(w, rest);
    NoHand(rest, i) && u.Some? && i in u.value.relays && Whole(u.value.relays[i].disk)
  }

  /** A death during the renames can be recovered from without a hand exactly when it
      came after the fourth. */
  lemma DeathHealsExactly(w0: World, trace: seq<Step>, w: World, i: Inst, v: World)
    requires Start(w0) && After(w0, trace) == Some(w)
    requires i in w.relays && w.relays[i].mem.Busy? && w.relays[i].mem.run.swap > 0
    requires Next(w, i, Die) == Some(v)
    ensures Recovers(v, i) <==> w.relays[i].mem.run.swap == 4
  {
    AlwaysInv(w0, trace, w);
    assert RelayOk(w, i, w.relays[i]);
    FrameOf(w, v, i, Die);
    if w.relays[i].mem.run.swap == 4 {
      assert RecoversBy(v, [], i);
    } else if Recovers(v, i) {
      var rest :| RecoversBy(v, rest, i);
      IncompleteStays(v, rest, After(v, rest).value, i);
      assert false;
    }
  }

  // --------------------------------------------------------------- retirement

  /** An instance at rest whose record retires its live certificate takes that
      credential off the directory with the next rotation past the grace period. */
  lemma RetiringLiveHits(w0: World, trace: seq<Step>, w: World, j: Inst, now: int, grace: int) returns (v: World)
    requires Start(w0) && After(w0, trace) == Some(w) && RetiresLive(w, j)
    requires w.relays[j].mem.Idle? && Whole(w.relays[j].disk)
    requires now - w.relays[j].saved.removal.value.rotatedAt >= grace * 86400
    ensures var k := w.relays[j].saved.removal.value.keyId;
            && k < |w.keys| && LiveAt(w, j, w.keys[k].thumb)
            && Plays(w, j, [] + [Boot(Rotation)] + [Load] + [PostRemove(k, Retired(now, grace), true)], v)
            && k !in v.present
  {
    RecordedIsLive(w0, trace, w, j);
    var k := w.relays[j].saved.removal.value.keyId;
    var loaded := StartsRotation(w, j);
    v := Apply(loaded, j, PostRemove(k, Retired(now, grace), true));
    PlayOne(w, j, [] + [Boot(Rotation)] + [Load], loaded, PostRemove(k, Retired(now, grace), true), v);
  }

  lemma RecordedIsLive(w0: World, trace: seq<Step>, w: World, j: Inst)
    requires Start(w0) && After(w0, trace) == Some(w) && RetiresLive(w, j)
    ensures var k := w.relays[j].saved.removal.value.keyId; k < |w.keys| && LiveAt(w, j, w.keys[k].thumb)
  {
    AlwaysInv(w0, trace, w);
    assert RelayOk(w, j, w.relays[j]);
  }

  lemma StartsRotation(w: World, j: Inst) returns (v: World)
    requires j in w.relays && w.relays[j].mem.Idle? && Whole(w.relays[j].disk)
    ensures Plays(w, j, [] + [Boot(Rotation)] + [Load], v)
    ensures j in v.relays && v.relays[j].saved == w.relays[j].saved && v.relays[j].mem.Busy?
    ensures v.relays[j].mem.run.job == Rotation && v.relays[j].mem.run.cur.Some? && v.relays[j].mem.run.added.None?
    ensures v.relays[j].mem.run.swap == 0
  {
    var booted := Apply(w, j, Boot(Rotation));
    v := Apply(booted, j, Load);
    PlayOne(w, j, [], w, Boot(Rotation), booted);
    PlayOne(w, j, [] + [Boot(Rotation)], booted, Load, v);
  }
}
