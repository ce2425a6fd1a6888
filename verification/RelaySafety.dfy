/** What holds of every history: which credentials removeKey may name, where the
    keys added to the directory end up, and what the files look like at a crash. */
module RelaySafety {
  import opened Common
  import opened RelayWorld
  import opened RelayInvariant

  predicate LiveAt(w: World, j: Inst, g: Gen)
  {
    j in w.relays && w.relays[j].disk.liveCert == Holds(g)
  }

  /** A removal that needed `--yes` or the override flag, or may have used it. */
  predicate Overridden(why: Reason) {
    why.ByHand? && (why.yes || why.override)
  }

  // ---------------------------------------------------------- removeKey is safe

  /** A removal names this instance's live credential exactly when the scheduled
      retirement is for the certificate that is live now. */
  lemma RemovalHitsOwnLive(w0: World, trace: seq<Step>, w: World, i: Inst, k: KeyId, why: Reason, hit: bool)
    requires Start(w0) && After(w0, trace) == Some(w)
    requires Next(w, i, PostRemove(k, why, hit)).Some?
    ensures k < |w.keys|
    ensures LiveAt(w, i, w.keys[k].thumb) <==>
            why.Retired? && LiveAt(w, i, w.relays[i].saved.removal.value.thumb)
    ensures LiveAt(w, i, w.keys[k].thumb) ==> w.relays[i].ledger.rolledBack
  {
    AlwaysInv(w0, trace, w);
    RemovesLive(w, i, w.relays[i], k, why);
  }

  lemma RemovesLive(w: World, i: Inst, r: Relay, k: KeyId, why: Reason)
    requires RelayInv(w, i, r) && r.mem.Busy? && MayRemove(w, i, r, r.mem.run, k, why)
    ensures k < |w.keys|
    ensures r.disk.liveCert == Holds(w.keys[k].thumb) <==>
            why.Retired? && r.disk.liveCert == Holds(r.saved.removal.value.thumb)
    ensures r.disk.liveCert == Holds(w.keys[k].thumb) ==> r.ledger.rolledBack
  {
    assert RelayOk(w, i, r);
  }

  ghost predicate RelayInv(w: World, i: Inst, r: Relay) {
    Inv(w) && i in w.relays && r == w.relays[i]
  }

  /** Without an override the credential holds a certificate of this instance. */
  lemma RemovesOwn(w: World, i: Inst, k: KeyId, why: Reason, hit: bool)
    requires Inv(w) && Next(w, i, PostRemove(k, why, hit)).Some? && !Overridden(why)
    ensures k < |w.keys| && Owns(w, i, w.keys[k].thumb)
  {
    assert RelayOk(w, i, w.relays[i]);
  }

  lemma LiveIsOwn(w: World, j: Inst, g: Gen)
    requires Inv(w) && LiveAt(w, j, g)
    ensures Owns(w, j, g)
  {
    assert RelayOk(w, j, w.relays[j]);
  }

  /** Without an override it names no other instance's live credential. */
  lemma RemovalSparesOthers(w0: World, trace: seq<Step>, w: World, i: Inst, k: KeyId, why: Reason, hit: bool,
                            j: Inst)
    requires Start(w0) && After(w0, trace) == Some(w)
    requires Next(w, i, PostRemove(k, why, hit)).Some? && !Overridden(why)
    requires j != i
    ensures k < |w.keys| && !LiveAt(w, j, w.keys[k].thumb)
  {
    AlwaysInv(w0, trace, w);
    RemovesOwn(w, i, k, why, hit);
    if LiveAt(w, j, w.keys[k].thumb) {
      LiveIsOwn(w, j, w.keys[k].thumb);
    }
  }

  /** What a hand removal may name, on what the key carries: never the live certificate;
      the recorded retirement freely, and so a key with this instance's stamp; a key with
      another's stamp only under the override flag; any other under either flag. */
  lemma HandRemovalTable(w: World, i: Inst, k: KeyId, yes: bool, override: bool, hit: bool)
    requires i in w.relays && w.relays[i].mem.Busy? && k < |w.keys|
    requires var run := w.relays[i].mem.run; run.job == HandRemoval && run.cur.Some? && run.swap == 0
    ensures var r, c := w.relays[i], w.keys[k];
            Next(w, i, PostRemove(k, ByHand(yes, override), hit)).Some? <==>
              && r.mem.run.cur != Some(c.thumb)
              && (|| (r.saved.removal.Some? && r.saved.removal.value.keyId == k)
                  || (r.named && c.owner == Some(i))
                  || (r.named && c.owner.Some? && c.owner != Some(i) && override)
                  || ((!r.named || c.owner.None?) && (yes || override)))
  {
  }

  /** Over every history: --yes alone lets a named instance remove no key that carries
      another instance's stamp, unless it is its own recorded retirement, and that never
      is another's; so no live credential of a sibling that stamps its keys. */
  lemma YesAloneSparesStamped(w0: World, trace: seq<Step>, w: World, i: Inst, k: KeyId, hit: bool)
    requires Start(w0) && After(w0, trace) == Some(w) && i in w.relays && w.relays[i].named
    requires Next(w, i, PostRemove(k, ByHand(true, false), hit)).Some?
    ensures k < |w.keys| && (w.keys[k].owner.None? || w.keys[k].owner == Some(i))
  {
    AlwaysInv(w0, trace, w);
    YesSparesStamped(w, i, w.relays[i], k);
  }

  lemma YesSparesStamped(w: World, i: Inst, r: Relay, k: KeyId)
    requires RelayInv(w, i, r) && r.named && r.mem.Busy? && MayRemove(w, i, r, r.mem.run, k, ByHand(true, false))
    ensures k < |w.keys| && (w.keys[k].owner.None? || w.keys[k].owner == Some(i))
  {
    assert RelayOk(w, i, r);
  }

  predicate Careful(e: Event) {
    !e.PortalDelete? && (e.PostRemove? ==> !Overridden(e.reason))
  }

  /** The recorded retirement is for the certificate that is live. */
  predicate RetiresLive(w: World, j: Inst) {
    j in w.relays && w.relays[j].saved.removal.Some? && LiveAt(w, j, w.relays[j].saved.removal.value.thumb)
  }

  /** A careful step of any instance takes a live certificate's credential off the
      directory exactly when it is that instance's own retirement of it; and never
      while the certificate its record retires is not the live one. */
  lemma LiveCredentialStays(w0: World, trace: seq<Step>, w: World, i: Inst, e: Event, v: World, j: Inst, k: KeyId)
    requires Start(w0) && After(w0, trace) == Some(w)
    requires Next(w, i, e) == Some(v) && Careful(e)
    requires k in w.present && k < |w.keys| && LiveAt(w, j, w.keys[k].thumb)
    ensures k !in v.present <==> i == j && e.PostRemove? && e.key == k && e.hit && e.reason.Retired?
    ensures !RetiresLive(w, j) ==> k in v.present
    ensures RetiresLive(w, j) ==> w.relays[j].ledger.rolledBack
  {
    if e.PostRemove? && e.key == k {
      if i == j {
        RemovalHitsOwnLive(w0, trace, w, i, k, e.reason, e.hit);
      } else {
        RemovalSparesOthers(w0, trace, w, i, k, e.reason, e.hit, j);
      }
    }
    if RetiresLive(w, j) {
      RetiresRolledBack(w0, trace, w, j);
    }
  }

  lemma RetiresRolledBack(w0: World, trace: seq<Step>, w: World, j: Inst)
    requires Start(w0) && After(w0, trace) == Some(w) && RetiresLive(w, j)
    ensures w.relays[j].ledger.rolledBack
  {
    AlwaysInv(w0, trace, w);
    assert RelayOk(w, j, w.relays[j]);
  }

  // -------------------------------------------------------- crash-safe file pairs

  /** At every point of every history a complete live pair is one generation, unless
      a reset has begun a key beside an old certificate, or an operator put two
      generations back, and the live certificate has not been replaced since. */
  lemma LivePairNeverMixed(w0: World, trace: seq<Step>, w: World, i: Inst)
    requires Start(w0) && After(w0, trace) == Some(w) && i in w.relays
    requires !w.relays[i].ledger.loose
    ensures Paired(w.relays[i].disk)
  {
    AlwaysInv(w0, trace, w);
    assert RelayOk(w, i, w.relays[i]);
  }

  /** A roll back leaves a mixed pair exactly when the `.previous` files are two
      generations, as a death between the two renames that make them leaves them. */
  lemma RollBackMixesExactly(w: World, i: Inst, v: World)
    requires Next(w, i, RollBack) == Some(v)
    ensures i in w.relays && i in v.relays
    ensures !Paired(v.relays[i].disk) <==> w.relays[i].disk.prevKey.gen != w.relays[i].disk.prevCert.gen
    ensures v.relays[i].ledger.loose <==> !Paired(v.relays[i].disk)
  {
    FrameOf(w, v, i, RollBack);
  }

  predicate KeyIn(d: Disk, a: Area, g: Gen) {
    d.liveKey == Holds(g) || d.prevKey == Holds(g) || KeySlot(d, a) == Holds(g)
  }

  predicate CertIn(d: Disk, a: Area, g: Gen) {
    d.liveCert == Holds(g) || d.prevCert == Holds(g) || CertSlot(d, a) == Holds(g)
  }

  /** After any number of the four renames, both complete pairs are on disk, so
      a death there loses neither, and no mixed pair is ever live. */
  lemma SwapLosesNothing(w0: World, trace: seq<Step>, w: World, i: Inst, run: Run)
    requires Start(w0) && After(w0, trace) == Some(w)
    requires i in w.relays && w.relays[i].mem.Busy? && w.relays[i].mem.run == run && run.swap > 0
    ensures run.cur.Some? && run.curKey.Some? && run.staged.Some?
    ensures KeyIn(w.relays[i].disk, Staging(run.job), run.curKey.value)
    ensures CertIn(w.relays[i].disk, Staging(run.job), run.cur.value)
    ensures KeyIn(w.relays[i].disk, Staging(run.job), run.staged.value)
    ensures CertIn(w.relays[i].disk, Staging(run.job), run.staged.value)
    ensures Paired(w.relays[i].disk)
    ensures Next(w, i, Die).Some? && Next(w, i, Die).value.relays[i].disk == w.relays[i].disk
  {
    AlwaysInv(w0, trace, w);
    assert RelayOk(w, i, w.relays[i]);
  }

  // ------------------------------------------------------------ key accounting

  /** The credentials this instance's addKey calls created, read off a history. */
  function AddedBy(w: World, trace: seq<Step>, i: Inst): set<KeyId> {
    if trace == [] then {}
    else
      var n := |trace| - 1;
      AddedBy(w, trace[..n], i) +
      if trace[n].who == i && (trace[n].what.AddKey? || trace[n].what.AddKeyUnanswered?)
         && After(w, trace[..n]).Some?
      then {|After(w, trace[..n]).value.keys|} else {}
  }

  /** The credentials this instance sent removeKey for, in order. */
  function AskedIn(trace: seq<Step>, i: Inst): seq<KeyId> {
    if trace == [] then []
    else
      var n := |trace| - 1;
      AskedIn(trace[..n], i) +
      if trace[n].who == i && trace[n].what.PostRemove? then [trace[n].what.key] else []
  }

  /** The credentials a read after removeKey no longer showed. */
  function SeenAbsent(trace: seq<Step>, i: Inst): set<KeyId> {
    if trace == [] then {}
    else
      var n := |trace| - 1;
      SeenAbsent(trace[..n], i) +
      if trace[n].who == i && trace[n].what.SeeGone? then {trace[n].what.key} else {}
  }

  /** Every generation that was the live certificate at some point. */
  function EverLive(w: World, trace: seq<Step>, i: Inst): set<Gen> {
    LiveNow(After(w, trace), i) +
    if trace == [] then {} else EverLive(w, trace[..|trace| - 1], i)
  }

  function LiveNow(w: Option<World>, i: Inst): set<Gen> {
    if w.Some? && i in w.value.relays && w.value.relays[i].disk.liveCert.Holds?
    then {w.value.relays[i].disk.liveCert.gen} else {}
  }

  /** Deaths after an addKey and before its state write, and resets. */
  function Losses(w: World, trace: seq<Step>, i: Inst): nat {
    if trace == [] then 0
    else
      var n := |trace| - 1;
      Losses(w, trace[..n], i) +
      if trace[n].who == i
         && (trace[n].what.AddKeyUnanswered? || trace[n].what.SaveReset?
             || (trace[n].what.Die? && DiesUnrecorded(After(w, trace[..n]), i)))
      then 1 else 0
  }

  predicate DiesUnrecorded(w: Option<World>, i: Inst) {
    w.Some? && i in w.value.relays && Unrecorded(w.value.relays[i].mem) != {}
  }

  /** The ledger says what the history says. */
  ghost predicate Recounts(w0: World, trace: seq<Step>, w: World, i: Inst) {
    i in w.relays && i in w0.relays &&
    var l := w.relays[i].ledger;
    && l.created == AddedBy(w0, trace, i)
    && l.gone == SeenAbsent(trace, i)
    && l.windowDeaths + l.resets == Losses(w0, trace, i)
    && l.wasLive <= EverLive(w0, trace, i)
    && l.asked == AskedIn(trace, i)
  }

  /** What one step of the same instance does to its ledger. */
  ghost predicate LedgerMoves(u: World, i: Inst, e: Event, w: World) {
    i in u.relays && i in w.relays &&
    var l, m := u.relays[i].ledger, w.relays[i].ledger;
    && m.created == l.created + (if e.AddKey? || e.AddKeyUnanswered? then {|u.keys|} else {})
    && m.gone == l.gone + (if e.SeeGone? then {e.key} else {})
    && m.windowDeaths + m.resets == l.windowDeaths + l.resets
         + (if e.AddKeyUnanswered? || e.SaveReset? || (e.Die? && DiesUnrecorded(Some(u), i)) then 1 else 0)
    && m.wasLive <= l.wasLive + LiveNow(Some(w), i)
    && m.asked == l.asked + (if e.PostRemove? then [e.key] else [])
  }

  /** A generation enters `wasLive` only on becoming the live certificate. */
  lemma NewlyLive(u: World, e: Event, w: World, i: Inst)
    requires Next(u, i, e) == Some(w)
    ensures w.relays[i].ledger.wasLive <= u.relays[i].ledger.wasLive + LiveNow(Some(w), i)
  {
    FrameOf(u, w, i, e);
    if e.WriteCert? || e.Swap? {
      LiveArrives(u, i, u.relays[i], e);
    }
  }

  lemma LiveArrives(u: World, i: Inst, r: Relay, e: Event)
    requires r.mem.Busy? && EnabledRun(u, i, r, r.mem.run, e) && (e.WriteCert? || e.Swap?)
    ensures var t := RelayAfter(u, r, e);
            t.ledger.wasLive == r.ledger.wasLive || (t.disk.liveCert.Holds? &&
                                                     t.ledger.wasLive == r.ledger.wasLive + {t.disk.liveCert.gen})
  {
  }

  lemma CountersMove(u: World, i: Inst, e: Event, l: Ledger, m: Ledger)
    requires i in u.relays && l == u.relays[i].ledger && m == LedgerAfter(u, u.relays[i], e)
    ensures m.created == l.created + (if e.AddKey? || e.AddKeyUnanswered? then {|u.keys|} else {})
    ensures m.gone == l.gone + (if e.SeeGone? then {e.key} else {})
    ensures m.windowDeaths + m.resets == l.windowDeaths + l.resets
         + (if e.AddKeyUnanswered? || e.SaveReset? || (e.Die? && DiesUnrecorded(Some(u), i)) then 1 else 0)
  {
  }

  lemma LedgerStep(u: World, e: Event, w: World, i: Inst)
    requires Next(u, i, e) == Some(w) && Inv(u) && Inv(w)
    ensures LedgerMoves(u, i, e, w)
  {
    NewlyLive(u, e, w, i);
    FrameOf(u, w, i, e);
    CountersMove(u, i, e, u.relays[i].ledger, w.relays[i].ledger);
  }

  lemma RecountStep(w0: World, prefix: seq<Step>, u: World, s: Step, w: World, i: Inst)
    requires After(w0, prefix) == Some(u) && After(w0, prefix + [s]) == Some(w)
    requires i in w.relays && i in u.relays
    requires if s.who == i then LedgerMoves(u, i, s.what, w) else w.relays[i] == u.relays[i]
    requires Recounts(w0, prefix, u, i)
    ensures Recounts(w0, prefix + [s], w, i)
  {
    var t := prefix + [s];
    assert t[..|t| - 1] == prefix;
    assert LiveNow(Some(w), i) <= EverLive(w0, t, i);
  }

  lemma {:induction false} LedgerRecounts(w0: World, trace: seq<Step>, w: World, i: Inst)
    requires Start(w0) && After(w0, trace) == Some(w) && i in w0.relays
    ensures Recounts(w0, trace, w, i)
  {
    if trace == [] {
      assert FirstBoot(w0, i, w0.relays[i]);
    } else {
      var n := |trace| - 1;
      var u, s := After(w0, trace[..n]).value, trace[n];
      assert trace[..n] + [s] == trace;
      LedgerRecounts(w0, trace[..n], u, i);
      AlwaysInv(w0, trace[..n], u);
      AlwaysInv(w0, trace, w);
      FrameOf(u, w, s.who, s.what);
      if s.who == i {
        LedgerStep(u, s.what, w, i);
      }
      RecountStep(w0, trace[..n], u, s, w, i);
    }
  }

  /** Every key an addKey call created has been live, was seen absent after its
      removal, is in the state file, is in the memory of the running process, or
      is one of the lost; there are at most as many lost as losses. */
  lemma AddedKeysAreAccounted(w0: World, trace: seq<Step>, w: World, i: Inst)
    returns (lost: set<KeyId>)
    requires Start(w0) && After(w0, trace) == Some(w) && i in w0.relays
    ensures i in w.relays && |lost| <= Losses(w0, trace, i)
    ensures forall k | k in AddedBy(w0, trace, i) ::
              && k < |w.keys|
              && (|| w.keys[k].thumb in EverLive(w0, trace, i)
                  || k in SeenAbsent(trace, i)
                  || k in lost
                  || (w.relays[i].saved.addition.Some? && w.relays[i].saved.addition.value.keyId == k)
                  || k in Unrecorded(w.relays[i].mem))
  {
    LedgerRecounts(w0, trace, w, i);
    AlwaysInv(w0, trace, w);
    var r := w.relays[i];
    assert RelayOk(w, i, r);
    lost := r.ledger.lost;
    forall k | k in AddedBy(w0, trace, i) ensures Settled(w, r, k) { }
  }

  /** At most one added key is outstanding: neither live once, nor gone, nor lost. */
  lemma OneOutstandingKey(w0: World, trace: seq<Step>, w: World, i: Inst, k: KeyId, m: KeyId)
    requires Start(w0) && After(w0, trace) == Some(w) && i in w.relays
    requires k in Outstanding(w, w.relays[i]) && m in Outstanding(w, w.relays[i])
    ensures k == m
  {
    AlwaysInv(w0, trace, w);
    assert RelayOk(w, i, w.relays[i]);
    assert Settled(w, w.relays[i], k) && Settled(w, w.relays[i], m);
  }

  function Outstanding(w: World, r: Relay): set<KeyId> {
    set k | k in r.ledger.created
            && !(k < |w.keys| && w.keys[k].thumb in r.ledger.wasLive)
            && k !in r.ledger.gone && k !in r.ledger.lost
  }
}
