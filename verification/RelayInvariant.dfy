/** What every step of every instance keeps, for any number of instances
    interleaved in any way and dying at any point. */
module RelayInvariant {
  import opened Common
  import opened RelayWorld

  predicate Owns(w: World, i: Inst, g: Gen) {
    g < |w.certs| && w.certs[g] == i
  }

  /** Stamps are unforged: a stamped credential holds a certificate of its owner. */
  ghost predicate DirectoryOk(w: World) {
    forall k: KeyId | k < |w.keys| ::
      && w.keys[k].thumb < |w.certs|
      && (w.keys[k].owner.Some? ==> w.certs[w.keys[k].thumb] == w.keys[k].owner.value)
  }

  predicate SlotOk(w: World, i: Inst, s: Slot) {
    s.Holds? ==> Owns(w, i, s.gen)
  }

  predicate Apart(a: Slot, b: Slot) {
    a.Holds? && b.Holds? ==> a.gen != b.gen
  }

  /** Only this instance's certificates, and no certificate in two places. */
  predicate DiskOk(w: World, i: Inst, d: Disk) {
    && SlotOk(w, i, d.liveKey) && SlotOk(w, i, d.liveCert)
    && SlotOk(w, i, d.newKey) && SlotOk(w, i, d.newCert)
    && SlotOk(w, i, d.recKey) && SlotOk(w, i, d.recCert)
    && SlotOk(w, i, d.prevKey) && SlotOk(w, i, d.prevCert)
    && Apart(d.liveCert, d.newCert) && Apart(d.liveCert, d.recCert) && Apart(d.liveCert, d.prevCert)
    && Apart(d.newCert, d.recCert) && Apart(d.newCert, d.prevCert) && Apart(d.recCert, d.prevCert)
  }

  predicate Unstaged(d: Disk, g: Gen) {
    d.newCert != Holds(g) && d.recCert != Holds(g)
  }

  predicate Names(w: World, i: Inst, k: KeyId, g: Gen) {
    k < |w.keys| && w.keys[k].thumb == g && Owns(w, i, g)
  }

  /** The recorded keyIds belong to the recorded certificates of this instance;
      the one to be retired is neither live nor waiting to become live. */
  predicate SavedOk(w: World, i: Inst, r: Relay) {
    && (r.saved.addition.Some? ==>
          Names(w, i, r.saved.addition.value.keyId, r.saved.addition.value.thumb))
    && (r.saved.removal.Some? ==>
          Names(w, i, r.saved.removal.value.keyId, r.saved.removal.value.thumb))
    && (r.saved.removal.Some? ==> Unstaged(r.disk, r.saved.removal.value.thumb))
    && (r.saved.removal.Some? && !r.ledger.rolledBack ==>
          r.disk.liveCert != Holds(r.saved.removal.value.thumb))
    && (r.saved.recovery.Some? ==>
          && OneOf(r.disk.recKey, r.saved.recovery.value)
          && OneOf(r.disk.recCert, r.saved.recovery.value))
  }

  predicate OneOf(s: Slot, g: Gen) {
    s == Absent || s == Holds(g)
  }

  /** The loaded pair is the live pair until the swap moves it to `.previous`. */
  predicate LoadedOk(w: World, i: Inst, d: Disk, run: Run) {
    run.cur.Some? ==>
      && run.job != Reset && run.curKey.Some?
      && Owns(w, i, run.cur.value) && Owns(w, i, run.curKey.value)
      && (if run.swap < 1 then d.liveKey == Holds(run.curKey.value)
          else d.prevKey == Holds(run.curKey.value))
      && (if run.swap < 2 then d.liveCert == Holds(run.cur.value)
          else d.prevCert == Holds(run.cur.value))
  }

  /** A generated certificate is nowhere but where this run put it. */
  predicate StagedOk(w: World, i: Inst, r: Relay, run: Run) {
    run.staged.Some? ==>
      var g := run.staged.value;
      && Owns(w, i, g) && run.cur != Some(g)
      && (r.disk.prevCert != Holds(g))
      && (run.made ==>
          && run.job != HandRemoval
          && (r.saved.removal.Some? ==> r.saved.removal.value.thumb != g)
          && (run.job == Rotation ==>
                r.disk.recCert != Holds(g) && (run.swap < 4 ==> r.disk.liveCert != Holds(g)))
          && (run.job == Recovery ==> r.disk.newCert != Holds(g) && r.disk.liveCert != Holds(g))
          && (run.job == Reset ==>
                && r.disk.newCert != Holds(g) && r.disk.recCert != Holds(g)
                && (!run.begun ==> r.disk.liveCert != Holds(g))))
      && (!run.made ==>
          && run.job == Recovery
          && (run.swap < 3 ==> r.disk.recKey == Holds(g))
          && (run.swap < 4 ==> r.disk.recCert == Holds(g)))
  }

  /** During the renames the incoming pair is half staged, half live. */
  predicate SwapOk(r: Relay, run: Run) {
    && run.swap <= 4
    && (run.swap > 0 ==>
        && run.cur.Some? && run.staged.Some? && run.proven && run.minted
        && (run.job == Rotation || run.job == Recovery)
        && (1 <= run.swap <= 2 ==> r.disk.liveKey == Absent)
        && (2 <= run.swap <= 3 ==> r.disk.liveCert == Absent)
        && (run.swap < 3 ==> KeySlot(r.disk, Staging(run.job)) == Holds(run.staged.value))
        && (run.swap < 4 ==> CertSlot(r.disk, Staging(run.job)) == Holds(run.staged.value))
        && (run.swap >= 3 ==> r.disk.liveKey == Holds(run.staged.value))
        && (run.swap == 4 ==> r.disk.liveCert == Holds(run.staged.value)))
  }

  predicate AddedOk(w: World, r: Relay, run: Run) {
    && (run.recorded ==> run.added.Some?)
    && (run.visible ==> run.recorded)
    && (run.job == Rotation && run.minted ==> run.visible)
    && (run.proven ==> run.minted)
    && (run.added.Some? ==>
        && run.job == Rotation && run.made && run.staged.Some?
        && run.added.value < |w.keys| && w.keys[run.added.value].thumb == run.staged.value
        && run.added.value in r.ledger.created
        && (!run.recorded ==> r.saved.addition.None? && run.swap == 0)
        && (run.recorded && r.saved.addition.Some? ==>
              r.saved.addition.value == Addition(run.added.value, run.staged.value)))
    && (run.job == Rotation && 0 < run.swap ==> run.recorded)
    && (run.job == Rotation && 0 < run.swap < 4 ==> r.saved.addition.Some?)
    && (run.job == Rotation && run.staged.Some? && run.added.None? ==> r.saved.addition.None?)
    && (run.staged.None? ==> !run.begun)
    && run.moved <= 2 && (run.moved == 1 ==> run.staged.None?)
    && (run.moved > 0 ==> run.job == Reset)
    && (run.begun ==> run.made)
    && (run.made ==> run.staged.Some?)
    && (run.liveFault ==> run.cur.Some? && !run.liveOk)
    && (run.staged.Some? && !run.made ==> run.liveFault)
  }

  predicate RunOk(w: World, i: Inst, r: Relay) {
    r.mem.Busy? ==>
      && LoadedOk(w, i, r.disk, r.mem.run)
      && StagedOk(w, i, r, r.mem.run)
      && SwapOk(r, r.mem.run)
      && AddedOk(w, r, r.mem.run)
      && r.mem.gone <= r.ledger.gone
  }

  /** Where a created credential can be: adopted, seen absent, forgotten, in the
      state file, or still only in the memory of the process that added it. */
  predicate Settled(w: World, r: Relay, k: KeyId) {
    && k < |w.keys|
    && (|| w.keys[k].thumb in r.ledger.wasLive
        || k in r.ledger.gone
        || k in r.ledger.lost
        || (r.saved.addition.Some? && r.saved.addition.value.keyId == k)
        || k in Unrecorded(r.mem))
  }

  ghost predicate LedgerOk(w: World, r: Relay) {
    && (r.disk.liveCert.Holds? ==> r.disk.liveCert.gen in r.ledger.wasLive)
    && (r.disk.prevCert.Holds? ==> r.disk.prevCert.gen in r.ledger.wasLive)
    && (forall k | k in r.ledger.created :: Settled(w, r, k))
    && |r.ledger.lost| <= r.ledger.windowDeaths + r.ledger.resets
  }

  /** A complete live pair is one generation. */
  predicate Paired(d: Disk) {
    d.liveKey.Holds? && d.liveCert.Holds? ==> d.liveKey.gen == d.liveCert.gen
  }

  predicate PairOk(r: Relay) {
    && (r.mem.Busy? ==> AsideOk(r.disk, r.mem.run))
    && (!r.ledger.loose ==>
          && Paired(r.disk)
          && (r.mem.Busy? && r.mem.run.job == Reset && r.mem.run.begun && r.mem.run.staged.Some? ==>
                && (r.disk.liveKey == Partial || r.disk.liveKey == StagedSlot(r.mem.run))
                && (r.disk.liveCert == Absent || r.disk.liveCert == Partial
                    || r.disk.liveCert == StagedSlot(r.mem.run))))
  }

  /** A reset that moved the live pair aside has left nothing in its place yet. */
  predicate AsideOk(d: Disk, run: Run) {
    run.job == Reset && !run.begun ==>
      && (run.moved >= 1 ==> d.liveKey == Absent)
      && (run.moved == 2 ==> d.liveCert == Absent)
  }

  ghost predicate RelayOk(w: World, i: Inst, r: Relay) {
    DiskOk(w, i, r.disk) && SavedOk(w, i, r) && RunOk(w, i, r) && LedgerOk(w, r) && PairOk(r)
  }

  ghost predicate Inv(w: World) {
    DirectoryOk(w) && forall i | i in w.relays :: RelayOk(w, i, w.relays[i])
  }

  /** Any set of instances after first boot, over any directory with honest stamps. */
  ghost predicate Start(w: World) {
    && DirectoryOk(w)
    && forall i | i in w.relays :: FirstBoot(w, i, w.relays[i])
  }

  predicate FirstBoot(w: World, i: Inst, r: Relay) {
    && r.mem.Idle? && r.saved == Saved(None, None, None, None, None)
    && r.disk.liveKey.Holds? && Owns(w, i, r.disk.liveKey.gen)
    && r.disk == Disk(r.disk.liveKey, r.disk.liveKey, Absent, Absent, Absent, Absent, Absent, Absent)
    && r.ledger == Ledger({r.disk.liveKey.gen}, {}, {}, {}, [], 0, 0, false, false)
  }

  // ------------------------------------------------------- one step keeps it all

  /** What a step of one instance leaves of the shared world. */
  predicate Grows(w: World, v: World) {
    w.certs <= v.certs && w.keys <= v.keys
  }

  lemma OthersStand(w: World, v: World, i: Inst, r: Relay)
    requires Grows(w, v) && RelayOk(w, i, r)
    ensures RelayOk(v, i, r)
  {
    forall g | Owns(w, i, g) ensures Owns(v, i, g) { }
    forall k | k in r.ledger.created ensures Settled(v, r, k) {
      assert Settled(w, r, k);
    }
  }

  lemma DirectoryKept(w: World, i: Inst, e: Event, v: World)
    requires Inv(w) && Next(w, i, e) == Some(v)
    ensures DirectoryOk(v)
  {
    var r := w.relays[i];
    assert RelayOk(w, i, r);
  }

  /** The relay after an event of its running process, if the process may take it. */
  ghost function Acted(w: World, i: Inst, r: Relay, e: Event): Option<Relay> {
    if DirectoryOk(w) && RelayOk(w, i, r) && r.mem.Busy? && EnabledRun(w, i, r, r.mem.run, e)
    then Some(RelayAfter(w, r, e)) else None
  }

  /** An event of a running process, as opposed to a start or the operator. */
  predicate Runs(e: Event) {
    !e.Boot? && !e.Upload? && !e.PortalDelete? && !e.RollBack?
  }

  predicate Creates(e: Event) {
    e.MakeCert? || e.MakeStandby? || e.AddKey? || e.AddKeyUnanswered?
  }

  /** The events that move a credential in the records, or end the process that holds
      it, and those that make a certificate live. */
  predicate MovesRecords(e: Event) {
    e.Die? || e.Finish? || e.ClearLive? || e.ClearGone? || e.ClearRetired? || e.SaveAddition? || e.SaveReset?
    || e.SaveRotated? || e.SaveRecovered?
  }

  predicate BringsLive(e: Event) {
    e.WriteCert? || e.Swap?
  }

  // Whatever its process does, every settled credential stays settled.

  lemma RecordsStaySettled(w: World, i: Inst, r: Relay, e: Event, t: Relay)
    requires Acted(w, i, r, e) == Some(t) && MovesRecords(e)
    ensures forall k | k in t.ledger.created :: Settled(w, t, k)
  {
    forall k | k in t.ledger.created ensures Settled(w, t, k) {
      assert Settled(w, r, k);
    }
  }

  lemma LiveStaysSettled(w: World, i: Inst, r: Relay, e: Event, t: Relay)
    requires Acted(w, i, r, e) == Some(t) && BringsLive(e)
    ensures forall k | k in t.ledger.created :: Settled(w, t, k)
  {
    forall k | k in t.ledger.created ensures Settled(w, t, k) {
      assert Settled(w, r, k);
    }
  }

  lemma RestStaysSettled(w: World, i: Inst, r: Relay, e: Event, t: Relay)
    requires Acted(w, i, r, e) == Some(t) && Runs(e) && !Creates(e) && !MovesRecords(e) && !BringsLive(e)
    ensures forall k | k in t.ledger.created :: Settled(w, t, k)
  {
    forall k | k in t.ledger.created ensures Settled(w, t, k) {
      assert Settled(w, r, k);
    }
  }

  lemma LoadKept(w: World, i: Inst, r: Relay, e: Event, t: Relay)
    requires Acted(w, i, r, e) == Some(t)
    requires e.Load? || e.LoadStandby?
    ensures RelayOk(w, i, t)
  {
    RestStaysSettled(w, i, r, e, t);
  }

  lemma ProofKept(w: World, i: Inst, r: Relay, e: Event, t: Relay)
    requires Acted(w, i, r, e) == Some(t)
    requires e.SeeKey? || e.MintStaged? || e.Prove?
    ensures RelayOk(w, i, t)
  {
    RestStaysSettled(w, i, r, e, t);
  }

  lemma LiveMintKept(w: World, i: Inst, r: Relay, e: Event, t: Relay)
    requires Acted(w, i, r, e) == Some(t)
    requires e.TokenFresh? || e.LiveMints? || e.LiveFaults?
    ensures RelayOk(w, i, t)
  {
    RestStaysSettled(w, i, r, e, t);
  }

  lemma RemovalKept(w: World, i: Inst, r: Relay, e: Event, t: Relay)
    requires Acted(w, i, r, e) == Some(t)
    requires e.PostRemove? || e.SeeGone?
    ensures RelayOk(w, i, t)
  {
    RestStaysSettled(w, i, r, e, t);
  }

  lemma ProcessKept(w: World, i: Inst, r: Relay, e: Event, t: Relay)
    requires Acted(w, i, r, e) == Some(t)
    requires e.Finish? || e.Die?
    ensures RelayOk(w, i, t)
  {
    RecordsStaySettled(w, i, r, e, t);
  }

  lemma OpenKeyKept(w: World, i: Inst, r: Relay, a: Area, t: Relay)
    requires Acted(w, i, r, OpenKey(a)) == Some(t)
    ensures RelayOk(w, i, t)
  {
    RestStaysSettled(w, i, r, OpenKey(a), t);
  }

  lemma WriteKeyKept(w: World, i: Inst, r: Relay, a: Area, t: Relay)
    requires Acted(w, i, r, WriteKey(a)) == Some(t)
    ensures RelayOk(w, i, t)
  {
    RestStaysSettled(w, i, r, WriteKey(a), t);
  }

  lemma DropKeyKept(w: World, i: Inst, r: Relay, a: Area, t: Relay)
    requires Acted(w, i, r, DropKey(a)) == Some(t)
    ensures RelayOk(w, i, t)
  {
    RestStaysSettled(w, i, r, DropKey(a), t);
  }

  lemma OpenCertKept(w: World, i: Inst, r: Relay, a: Area, t: Relay)
    requires Acted(w, i, r, OpenCert(a)) == Some(t)
    ensures RelayOk(w, i, t)
  {
    RestStaysSettled(w, i, r, OpenCert(a), t);
  }

  lemma WriteCertKept(w: World, i: Inst, r: Relay, a: Area, t: Relay)
    requires Acted(w, i, r, WriteCert(a)) == Some(t)
    ensures RelayOk(w, i, t)
  {
    LiveStaysSettled(w, i, r, WriteCert(a), t);
  }

  lemma DropCertKept(w: World, i: Inst, r: Relay, a: Area, t: Relay)
    requires Acted(w, i, r, DropCert(a)) == Some(t)
    ensures RelayOk(w, i, t)
  {
    RestStaysSettled(w, i, r, DropCert(a), t);
  }

  lemma AsideKept(w: World, i: Inst, r: Relay, e: Event, t: Relay)
    requires Acted(w, i, r, e) == Some(t)
    requires e.MoveLiveKey? || e.MoveLiveCert?
    ensures RelayOk(w, i, t)
  {
    RestStaysSettled(w, i, r, e, t);
  }

  lemma ClearKept(w: World, i: Inst, r: Relay, e: Event, t: Relay)
    requires Acted(w, i, r, e) == Some(t)
    requires e.ClearLive? || e.ClearGone? || e.ClearRetired?
    ensures RelayOk(w, i, t)
  {
    RecordsStaySettled(w, i, r, e, t);
  }

  lemma FaultCountKept(w: World, i: Inst, r: Relay, e: Event, t: Relay)
    requires Acted(w, i, r, e) == Some(t)
    requires e.SaveHealthy? || e.SaveFault?
    ensures RelayOk(w, i, t)
  {
    RestStaysSettled(w, i, r, e, t);
  }

  lemma StandbyStateKept(w: World, i: Inst, r: Relay, e: Event, t: Relay)
    requires Acted(w, i, r, e) == Some(t)
    requires e.SaveDiscard? || e.SaveMissing? || e.SaveStandby?
    ensures RelayOk(w, i, t)
  {
    RestStaysSettled(w, i, r, e, t);
  }

  lemma AdditionKept(w: World, i: Inst, r: Relay, e: Event, t: Relay)
    requires Acted(w, i, r, e) == Some(t)
    requires e.SaveAddition? || e.SaveReset?
    ensures RelayOk(w, i, t)
  {
    RecordsStaySettled(w, i, r, e, t);
  }

  lemma ScheduleKept(w: World, i: Inst, r: Relay, e: Event, t: Relay)
    requires Acted(w, i, r, e) == Some(t)
    requires e.SaveRotated? || e.SaveRecovered?
    ensures RelayOk(w, i, t)
  {
    RecordsStaySettled(w, i, r, e, t);
  }

  lemma SwapKept(w: World, i: Inst, r: Relay, n: nat, t: Relay)
    requires Acted(w, i, r, Swap(n)) == Some(t)
    ensures RelayOk(w, i, t)
  {
    LiveStaysSettled(w, i, r, Swap(n), t);
  }

  lemma IdleKept(w: World, i: Inst, r: Relay, e: Event, t: Relay)
    requires DirectoryOk(w) && RelayOk(w, i, r) && r.mem.Idle?
    requires e.Boot? || (e.RollBack? && r.disk.prevKey.Holds? && r.disk.prevCert.Holds?)
    requires t == RelayAfter(w, r, e)
    ensures RelayOk(w, i, t)
  {
    assert forall k | k in t.ledger.created :: Settled(w, r, k) ==> Settled(w, t, k);
  }

  lemma MakeKept(w: World, v: World, i: Inst, r: Relay, e: Event, t: Relay)
    requires Acted(w, i, r, e) == Some(t)
    requires e.MakeCert? || e.MakeStandby?
    requires v.keys == w.keys && v.certs == w.certs + [i]
    ensures RelayOk(v, i, t)
  {
    OthersStand(w, v, i, r);
    assert forall k | k in t.ledger.created :: Settled(v, r, k) ==> Settled(v, t, k);
  }

  lemma AddKept(w: World, v: World, i: Inst, r: Relay, e: Event, t: Relay)
    requires Acted(w, i, r, e) == Some(t)
    requires e.AddKey? || e.AddKeyUnanswered?
    requires v.certs == w.certs && v.keys == w.keys + [NewKey(i, r, r.mem.run.staged.value)]
    ensures RelayOk(v, i, t)
  {
    OthersStand(w, v, i, r);
    assert forall k | k in r.ledger.created :: Settled(v, r, k) ==> Settled(v, t, k);
  }

  lemma StillKept(w: World, i: Inst, r: Relay, e: Event, t: Relay)
    requires Acted(w, i, r, e) == Some(t) && Runs(e) && !Creates(e)
    ensures RelayOk(w, i, t)
  {
    if e.OpenKey? {
      OpenKeyKept(w, i, r, e.area, t);
    } else if e.WriteKey? {
      WriteKeyKept(w, i, r, e.area, t);
    } else if e.DropKey? {
      DropKeyKept(w, i, r, e.area, t);
    } else if e.OpenCert? {
      OpenCertKept(w, i, r, e.area, t);
    } else if e.WriteCert? {
      WriteCertKept(w, i, r, e.area, t);
    } else if e.DropCert? {
      DropCertKept(w, i, r, e.area, t);
    } else if e.MoveLiveKey? || e.MoveLiveCert? {
      AsideKept(w, i, r, e, t);
    } else if e.Swap? {
      SwapKept(w, i, r, e.n, t);
    } else if e.PostRemove? || e.SeeGone? {
      RemovalKept(w, i, r, e, t);
    } else if e.Finish? || e.Die? {
      ProcessKept(w, i, r, e, t);
    } else if e.ClearLive? || e.ClearGone? || e.ClearRetired? {
      ClearKept(w, i, r, e, t);
    } else if e.SaveAddition? || e.SaveReset? {
      AdditionKept(w, i, r, e, t);
    } else if e.SaveRotated? || e.SaveRecovered? {
      ScheduleKept(w, i, r, e, t);
    } else if e.SaveHealthy? || e.SaveFault? {
      FaultCountKept(w, i, r, e, t);
    } else if e.SaveDiscard? || e.SaveMissing? || e.SaveStandby? {
      StandbyStateKept(w, i, r, e, t);
    } else if e.Load? || e.LoadStandby? {
      LoadKept(w, i, r, e, t);
    } else if e.SeeKey? || e.MintStaged? || e.Prove? {
      ProofKept(w, i, r, e, t);
    } else {
      LiveMintKept(w, i, r, e, t);
    }
  }

  lemma ActorKept(w: World, v: World, i: Inst, r: Relay, e: Event, t: Relay)
    requires Acted(w, i, r, e) == Some(t)
    requires Runs(e)
    requires v.certs == CertsAfter(w.certs, i, e) && v.keys == KeysAfter(w, i, r, e)
    ensures RelayOk(v, i, t)
  {
    if e.MakeCert? || e.MakeStandby? {
      MakeKept(w, v, i, r, e, t);
    } else if e.AddKey? || e.AddKeyUnanswered? {
      AddKept(w, v, i, r, e, t);
    } else {
      StillKept(w, i, r, e, t);
      OthersStand(w, v, i, t);
    }
  }

  lemma RunningKept(w: World, v: World, i: Inst, r: Relay, e: Event)
    requires Inv(w) && Next(w, i, e) == Some(v) && Runs(e) && r == w.relays[i]
    ensures RelayOk(v, i, v.relays[i])
  {
    assert RelayOk(w, i, r);
    ActorKept(w, v, i, r, e, v.relays[i]);
  }

  lemma OthersKept(w: World, v: World, i: Inst, j: Inst)
    requires Inv(w) && Grows(w, v) && j in w.relays && j != i && i in w.relays
    requires v.relays.Keys == w.relays.Keys && v.relays[j] == w.relays[j]
    ensures RelayOk(v, j, v.relays[j])
  {
    assert RelayOk(w, j, w.relays[j]);
    OthersStand(w, v, j, w.relays[j]);
  }

  lemma FrameOf(w: World, v: World, i: Inst, e: Event)
    requires i in w.relays && v == Apply(w, i, e)
    ensures Grows(w, v) && v.relays.Keys == w.relays.Keys
    ensures v.relays[i] == RelayAfter(w, w.relays[i], e)
    ensures forall j | j in w.relays && j != i :: v.relays[j] == w.relays[j]
  {
  }

  /** A start, an upload, a deletion in the portal or an operator's roll back. */
  lemma OutsideKept(w: World, v: World, i: Inst, r: Relay, e: Event, t: Relay)
    requires DirectoryOk(w) && RelayOk(w, i, r) && Grows(w, v) && t == RelayAfter(w, r, e)
    requires match e
             case Boot(_) => r.mem.Idle?
             case RollBack => r.mem.Idle? && r.disk.prevKey.Holds? && r.disk.prevCert.Holds?
             case _ => e.Upload? || e.PortalDelete?
    ensures RelayOk(v, i, t)
  {
    if e.Boot? || e.RollBack? {
      IdleKept(w, i, r, e, t);
    } else {
      assert t == r;
    }
    OthersStand(w, v, i, t);
  }

  lemma StepKeepsInv(w: World, i: Inst, e: Event, v: World)
    requires Inv(w) && Next(w, i, e) == Some(v)
    ensures Inv(v)
  {
    var r := w.relays[i];
    assert RelayOk(w, i, r);
    DirectoryKept(w, i, e, v);
    FrameOf(w, v, i, e);
    if Runs(e) {
      RunningKept(w, v, i, r, e);
    } else {
      OutsideKept(w, v, i, r, e, v.relays[i]);
    }
    EveryoneKept(w, v, i);
  }

  lemma EveryoneKept(w: World, v: World, i: Inst)
    requires Inv(w) && Grows(w, v) && i in w.relays && v.relays.Keys == w.relays.Keys
    requires DirectoryOk(v) && RelayOk(v, i, v.relays[i])
    requires forall j | j in w.relays && j != i :: v.relays[j] == w.relays[j]
    ensures Inv(v)
  {
    forall j | j in v.relays && j != i ensures RelayOk(v, j, v.relays[j]) {
      OthersKept(w, v, i, j);
    }
  }

  lemma StartsOk(w: World)
    requires Start(w)
    ensures Inv(w)
  {
    forall i | i in w.relays ensures RelayOk(w, i, w.relays[i]) {
      assert FirstBoot(w, i, w.relays[i]);
    }
  }

  /** Every history of every number of instances, from any start. */
  lemma {:induction false} AlwaysInv(w: World, trace: seq<Step>, v: World)
    requires Start(w) && After(w, trace) == Some(v)
    ensures Inv(v)
  {
    if trace == [] {
      StartsOk(w);
    } else {
      var n := |trace| - 1;
      var u := After(w, trace[..n]).value;
      AlwaysInv(w, trace[..n], u);
      StepKeepsInv(u, trace[n].who, trace[n].what, v);
    }
  }
}
