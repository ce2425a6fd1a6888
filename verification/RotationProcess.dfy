/** The rotation script as it runs: one process of one instance.

    Every effect is one event of RelayWorld, performed by `Do`.  The process may
    die instead of any effect, and after each one the other instances may take
    any number of steps.  `P` stands for any set of worlds that every step of the event
    machine stays in: every method below
    stays in it on every path, so all that RelaySafety and RelayHistory prove of
    reachable worlds holds at every point where these methods can stop. */
module RotationProcess {
  import opened Common
  import opened RelayWorld
  import opened RelayInvariant
  import TokenFailure
  import Window = RotationWindow

  /** No step of any instance leaves P. */
  ghost predicate Lasting(P: iset<World>) {
    forall w, i, e | w in P && Next(w, i, e).Some? :: Next(w, i, e).value in P
  }

  predicate At(r: Relay, d: Disk, s: Saved, run: Run) {
    r.mem.Busy? && r.disk == d && r.saved == s && r.mem.run == run
  }

  /** The phases of a rotation that replaces pair (key, cur) by generation g. */
  function Loaded(job: Job, key: Gen, cur: Gen): Run {
    NEW_RUN.(job := job, curKey := Some(key), cur := Some(cur))
  }

  function Staged(key: Gen, cur: Gen, g: Gen): Run {
    Loaded(Rotation, key, cur).(staged := Some(g), made := true, begun := true)
  }

  function Recorded(key: Gen, cur: Gen, g: Gen, k: KeyId): Run {
    Staged(key, cur, g).(added := Some(k), recorded := true)
  }

  function Proven(key: Gen, cur: Gen, g: Gen, k: KeyId): Run {
    Recorded(key, cur, g, k).(visible := true, minted := true, proven := true)
  }

  function WithNew(d: Disk, g: Gen): Disk {
    d.(newKey := Holds(g), newCert := Holds(g))
  }

  /** The old pair aside, the new pair in from an area, and both. */
  function MovedOut(d: Disk): Disk {
    d.(prevKey := d.liveKey, prevCert := d.liveCert, liveKey := Absent, liveCert := Absent)
  }

  function MovedIn(d: Disk, a: Area): Disk {
    SetCert(SetKey(d.(liveKey := KeySlot(d, a), liveCert := CertSlot(d, a)), a, Absent), a, Absent)
  }

  function Swapped(d: Disk, a: Area): Disk {
    MovedIn(MovedOut(d), a)
  }

  /** The files once a reset has moved a whole live pair aside. */
  function AsideIfWhole(d: Disk): Disk {
    if d.liveKey.Absent? || d.liveCert.Absent? then d
    else d.(prevKey := d.liveKey, prevCert := d.liveCert, liveKey := Absent, liveCert := Absent)
  }

  /** The swap of d stopped before or after any of its four renames. */
  predicate InSwap(d: Disk, job: Job, now: Disk) {
    || now == d || now == SwapDisk(d, job, 1) || now == MovedOut(d) || now == SwapDisk(MovedOut(d), job, 3)
    || now == Swapped(d, Staging(job))
  }

  /** These are the files after none, one, two, three and four of them. */
  lemma SwapStops(d: Disk, job: Job)
    requires job == Rotation || job == Recovery
    ensures MovedOut(d) == SwapDisk(SwapDisk(d, job, 1), job, 2)
    ensures Swapped(d, Staging(job)) == SwapDisk(SwapDisk(MovedOut(d), job, 3), job, 4)
  {
  }

  /** What a rotation of d can leave when it dies: nothing live touched, or its swap
      of one new pair stopped somewhere. */
  ghost predicate DiesSafely(d: Disk, now: Disk) {
    SameButNew(now, d) || exists g :: InSwap(WithNew(d, g), Rotation, now)
  }

  /** The files, apart from the `.pem.new` pair. */
  predicate SameButNew(d: Disk, e: Disk) {
    d == e.(newKey := d.newKey, newCert := d.newCert)
  }

  /** A credential that carries a thumbprint, other than the one to skip. */
  predicate Fits(keys: seq<Credential>, k: KeyId, thumb: Gen, skip: Option<KeyId>) {
    Some(k) != skip && k < |keys| && keys[k].thumb == thumb
  }

  /** The first credential of a read that fits, or none when none does. */
  predicate FirstFit(keys: seq<Credential>, view: seq<KeyId>, thumb: Gen, skip: Option<KeyId>, found: Option<KeyId>) {
    match found
    case None => forall k | k in view :: !Fits(keys, k, thumb, skip)
    case Some(key) =>
      exists n | 0 <= n < |view| ::
        view[n] == key && Fits(keys, key, thumb, skip) && forall k | k in view[..n] :: !Fits(keys, k, thumb, skip)
  }

  /** A read of the directory: whether it was answered with 200, and whether it showed
      the key that was looked for. */
  datatype Read = Read(ok: bool, shown: bool)

  predicate Shows(r: Read) {
    r.ok && r.shown
  }

  predicate Lacks(r: Read) {
    r.ok && !r.shown
  }

  /** What one removeKey meets: whether a Graph token is granted, whether the directory
      drops the key, the status of the answer and whether its text says the key is gone
      already, and the reads that follow. */
  datatype Removing = Removing(token: bool, hit: bool, status: int, gone: bool, polls: nat -> Read)

  /** Asked, accepted, and then one of twelve reads did not show the key. */
  predicate Removed(a: Removing) {
    && a.token && (a.status == 200 || a.status == 204 || a.gone)
    && exists n: nat | n < 12 :: Lacks(a.polls(n))
  }

  predicate SeenBefore(polls: nat -> Read, n: nat) {
    exists m: nat | m < n :: Shows(polls(m))
  }

  predicate MintedBefore(mints: nat -> bool, n: nat) {
    exists m: nat | m < n :: mints(m)
  }

  /** What a rotation is told: of the leftover key, of the key to retire, of the new key
      (None when no answer to addKey arrives), and of the old key when it looks for it. */
  datatype Net = Net(
    leftover: Removing,
    retired: Removing,
    addKey: Option<int>, applied: bool,
    visible: nat -> Read,
    mints: nat -> bool,
    accepted: bool,
    abandoned: Removing,
    listing: seq<KeyId>)

  /** The new pair was seen, minted a token, and its proof message was accepted. */
  predicate Proves(net: Net) {
    SeenBefore(net.visible, 24) && MintedBefore(net.mints, 20) && net.accepted
  }

  /** The first fit in a read made when the directory held some keys between these. */
  ghost predicate FoundIn(was: World, now: World, view: seq<KeyId>, thumb: Gen, skip: Option<KeyId>,
                          found: Option<KeyId>) {
    exists keys: seq<Credential> | was.keys <= keys <= now.keys :: FirstFit(keys, view, thumb, skip, found)
  }

  /** The recorded retirement is due. */
  predicate GraceOver(s: Saved, now: int, graceDays: int) {
    s.removal.Some? && now - s.removal.value.rotatedAt >= graceDays * 86400
  }

  /** The removeKey calls sent for a leftover key, and for one whose grace is over. */
  function LeftoverAsks(s: Saved, cur: Gen, a: Removing): seq<KeyId> {
    if s.addition.Some? && s.addition.value.thumb != cur && a.token then [s.addition.value.keyId] else []
  }

  function RetiredAsks(s: Saved, now: int, graceDays: int, a: Removing): seq<KeyId> {
    if GraceOver(s, now, graceDays) && a.token then [s.removal.value.keyId] else []
  }

  lemma FoundSince(was: World, mid: World, now: World, view: seq<KeyId>, thumb: Gen, skip: Option<KeyId>,
                   found: Option<KeyId>)
    requires Grows(was, mid) && FoundIn(mid, now, view, thumb, skip, found)
    ensures FoundIn(was, now, view, thumb, skip, found)
  {
    var keys: seq<Credential> :| mid.keys <= keys <= now.keys && FirstFit(keys, view, thumb, skip, found);
    assert was.keys <= keys;
  }

  datatype Settings = Settings(now: int, graceDays: int, remaining: int, renewAt: int, force: bool, recipient: bool)

  datatype RotationEnd =
    | StillPending | NotDue | Expired | NoRecipient | Refused
    | GaveUp(g: Gen, key: KeyId, removed: bool)
    | Rotated(g: Gen, key: KeyId, found: Option<KeyId>)

  /** A renewal is due, or forced, and the certificate can still sign for it. */
  predicate Renews(o: Settings) {
    (o.remaining <= o.renewAt || o.force) && o.remaining > 0
  }

  /** That is the decision of the renewal window. */
  lemma DecidesAsWindow(o: Settings)
    ensures Renews(o) <==> Window.Decide(o.remaining, o.renewAt, o.force) == Window.Renew
    ensures o.remaining > o.renewAt && !o.force <==> Window.Decide(o.remaining, o.renewAt, o.force) == Window.NotDue
  {
  }

  /** The end a rotation of the live certificate `cur` comes to. */
  predicate RotationEnds(s: Saved, cur: Gen, o: Settings, net: Net, end: RotationEnd) {
    && (end.StillPending? <==> s.addition.Some? && s.addition.value.thumb != cur && !Removed(net.leftover))
    && (!end.StillPending? ==>
          && (end.NotDue? <==> o.remaining > o.renewAt && !o.force)
          && (end.Expired? <==> (o.remaining <= o.renewAt || o.force) && o.remaining <= 0)
          && (end.NoRecipient? <==> Renews(o) && !o.recipient)
          && (end.Refused? <==> Renews(o) && o.recipient && net.addKey != Some(200))
          && (end.Rotated? <==> Renews(o) && o.recipient && net.addKey == Some(200) && Proves(net))
          && (end.GaveUp? <==> Renews(o) && o.recipient && net.addKey == Some(200) && !Proves(net)))
  }

  /** The removeKey calls it sends, in order. */
  function RotationAsks(s: Saved, cur: Gen, o: Settings, net: Net, end: RotationEnd): seq<KeyId> {
    LeftoverAsks(s, cur, net.leftover) +
    (if end.StillPending? then [] else RetiredAsks(s, o.now, o.graceDays, net.retired)) +
    (if end.GaveUp? && net.abandoned.token then [end.key] else [])
  }

  /** The records it leaves. */
  function RotationSaved(s: Saved, cur: Gen, o: Settings, net: Net, end: RotationEnd): Saved {
    if end.StillPending? then s
    else
      s.(addition := if end.GaveUp? && !Removed(net.abandoned) then Some(Addition(end.key, end.g)) else None,
         removal := if end.Rotated? && end.found.Some? then Some(Removal(end.found.value, cur, o.now))
                    else if GraceOver(s, o.now, o.graceDays) && Removed(net.retired) then None
                    else s.removal)
  }

  /** And the files. */
  function RotationDisk(d: Disk, end: RotationEnd): Disk {
    match end
    case Rotated(g, _, _) => Swapped(WithNew(d, g), New)
    case Refused => d.(newKey := Absent, newCert := Absent)
    case GaveUp(_, _, _) => d.(newKey := Absent, newCert := Absent)
    case _ => d
  }

  /** The new certificate and the new key are new, and the old key is the one found. */
  ghost predicate RotationNames(was: World, now: World, cur: Gen, net: Net, end: RotationEnd) {
    && (end.GaveUp? || end.Rotated? ==> |was.certs| <= end.g && |was.keys| <= end.key)
    && (end.Rotated? ==> FoundIn(was, now, net.listing, cur, Some(end.key), end.found))
  }

  lemma NamesSince(was: World, mid: World, now: World, cur: Gen, net: Net, end: RotationEnd)
    requires Grows(was, mid) && RotationNames(mid, now, cur, net, end)
    ensures RotationNames(was, now, cur, net, end)
  {
    if end.Rotated? {
      FoundSince(was, mid, now, net.listing, cur, Some(end.key), end.found);
    }
  }

  /** The table of a hand removal, on what the key carries: never the live certificate;
      the recorded retirement, or a key with this instance's stamp, freely; a key with
      another's stamp under the override flag; any other under either flag. */
  predicate LetThrough(r: Relay, me: Inst, c: Credential, k: KeyId, yes: bool, override: bool) {
    && r.disk.liveCert != Holds(c.thumb)
    && (|| (r.saved.removal.Some? && r.saved.removal.value.keyId == k)
        || (r.named && c.owner == Some(me))
        || (r.named && c.owner.Some? && override)
        || ((!r.named || c.owner.None?) && (yes || override)))
  }

  datatype HandEnd = Unread | NotThere | Forbidden(kind: Ownership) | Asked(kind: Ownership, removed: bool)

  datatype MintReply = Minted | Failed(status: Option<int>, body: string)

  /** What one recovery pass is given, and what it is told. */
  datatype Pass = Pass(enabled: bool, tokenFresh: bool, expired: bool, live: MintReply, recipient: bool,
                       standbyMints: bool, proofAccepted: bool,
                       countedAt: int, checkedAt: int, needStreak: int, needSeconds: int,
                       listing: seq<KeyId>)

  datatype PassEnd =
    | Disabled | Shortcut | NoLivePair | LiveWorks | NotCertificate
    | Counted | Generated(g: Gen)
    | StandbyMissing | StandbyUnreadable | StandbyWaiting | ProofWaiting
    | Recovered(found: Option<KeyId>)

  /** A failed mint that recovery acts on. */
  predicate CertificateFault(p: Pass) {
    p.live.Failed? && (p.expired || TokenFailure.Classify(p.live.status, p.live.body) == TokenFailure.CertFault)
  }

  /** A failed mint counts when the certificate has expired here, or the answer, below
      500, blames it. */
  lemma FaultExactly(p: Pass)
    ensures CertificateFault(p) <==>
            && p.live.Failed?
            && (|| p.expired
                || (p.live.status.Some? && p.live.status.value < 500
                    && TokenFailure.BlamesCertificate(TokenFailure.Lower(p.live.body))))
  {
    if p.live.Failed? {
      TokenFailure.OnlyAnsweredBlame(p.live.status, p.live.body);
    }
  }

  function Settle(s: Saved): Saved {
    s.(recovery := None, streak := None, since := None)
  }

  predicate GateOpen(s: Saved, p: Pass) {
    && s.streak.Some? && s.since.Some?
    && p.needStreak <= s.streak.value && p.needSeconds <= p.checkedAt - s.since.value
  }

  /** What a completed pass that tested the live pair leaves, from disk d and state s. */
  predicate PassResult(d: Disk, s: Saved, d2: Disk, s2: Saved, cur: Gen, p: Pass, end: PassEnd) {
    match end
    case LiveWorks =>
      if s.recovery.Some?
      then s2 == Settle(s) && d2 == d.(recKey := Absent, recCert := Absent)
      else s2 == ClearStreak(s) && d2 == d
    case NotCertificate => s2 == s && d2 == d
    case Counted => s.recovery.None? && s2 == CountFault(s, p.countedAt) && !GateOpen(s2, p) && d2 == d
    case Generated(g) =>
      && s.recovery.None? && GateOpen(CountFault(s, p.countedAt), p)
      && s2 == CountFault(s, p.countedAt).(recovery := Some(g))
      && d2 == d.(recKey := Holds(g), recCert := Holds(g))
    case StandbyMissing =>
      && s.recovery.Some? && (d.recKey.Absent? || d.recCert.Absent?)
      && s2 == s.(recovery := None) && d2 == d
    case Recovered(found) =>
      && s.recovery.Some? && d.recKey.Holds? && d.recCert.Holds? && p.standbyMints && (p.recipient ==> p.proofAccepted)
      && d2 == Swapped(d, Rec) && s2 == Schedule(Settle(s), found, cur, p.checkedAt)
    case ProofWaiting =>
      && s.recovery.Some? && d.recKey.Holds? && d.recCert.Holds? && p.standbyMints && p.recipient && !p.proofAccepted
      && s2 == s && d2 == d
    case StandbyWaiting =>
      && s.recovery.Some? && d.recKey.Holds? && d.recCert.Holds? && !p.standbyMints
      && s2 == s && d2 == d
    case StandbyUnreadable =>
      && s.recovery.Some? && !d.recKey.Absent? && !d.recCert.Absent? && (d.recKey.Partial? || d.recCert.Partial?)
      && s2 == s && d2 == d
    case Disabled => s2 == s && d2 == d
    case Shortcut => s2 == ClearStreak(s) && d2 == d
    case NoLivePair => s2 == s && d2 == d
  }

  /** The same without the functions the script is modelled with: a working pass drops a
      standby's three records, or the streak, or else the start time; a counted fault is
      one more than the streak, or the first, and its start time is kept unless there is
      none; a standby is generated exactly when both thresholds are reached. */
  predicate InPlainTerms(s: Saved, cur: Gen, p: Pass, end: PassEnd, t: Saved) {
    match end
    case LiveWorks =>
      t == if s.recovery.Some? then s.(recovery := None, streak := None, since := None)
           else if s.streak.Some? then s.(streak := None)
           else s.(since := None)
    case Recovered(found) =>
      t == s.(recovery := None, streak := None, since := None,
              removal := if found.None? then s.removal else Some(Removal(found.value, cur, p.checkedAt)))
    case StandbyMissing => t == s.(recovery := None)
    case Counted => FaultCounted(s, p, false, None, t)
    case Generated(g) => FaultCounted(s, p, true, Some(g), t)
    case _ => t == s
  }

  predicate FaultCounted(s: Saved, p: Pass, generates: bool, standby: Option<Gen>, t: Saved) {
    var streak := if s.streak.Some? then s.streak.value + 1 else 1;
    var start := if s.since.Some? && s.since.value != 0 then s.since.value else p.countedAt;
    && t == s.(streak := Some(streak), since := Some(start), recovery := standby)
    && (generates <==> streak >= p.needStreak && p.checkedAt - start >= p.needSeconds)
  }

  lemma PassInPlainTerms(d: Disk, s: Saved, d2: Disk, s2: Saved, cur: Gen, p: Pass, end: PassEnd)
    requires PassResult(d, s, d2, s2, cur, p, end) && !end.Shortcut?
    ensures InPlainTerms(s, cur, p, end, s2)
  {
  }

  ghost function ReachableFrom(w0: World): iset<World> {
    iset w | exists trace :: After(w0, trace) == Some(w)
  }

  /** The worlds some history leads to are such a set, and all of them are sound:
      a process over them never leaves what RelaySafety and RelayHistory describe. */
  lemma ReachableLasts(w0: World)
    requires Start(w0)
    ensures Lasting(ReachableFrom(w0)) && w0 in ReachableFrom(w0)
    ensures forall w | w in ReachableFrom(w0) :: Inv(w)
  {
    assert After(w0, []) == Some(w0);
    forall w, i, e | w in ReachableFrom(w0) && Next(w, i, e).Some?
      ensures Next(w, i, e).value in ReachableFrom(w0)
    {
      var trace :| After(w0, trace) == Some(w);
      AfterAppend(w0, trace, Step(i, e));
    }
    forall w | w in ReachableFrom(w0) ensures Inv(w) {
      var trace :| After(w0, trace) == Some(w);
      AlwaysInv(w0, trace, w);
    }
  }

  lemma Stays(P: iset<World>, w: World, i: Inst, e: Event)
    requires Lasting(P) && w in P && Next(w, i, e).Some?
    ensures Next(w, i, e).value in P
  {
  }

  /** Which effects the process does not live to see, and whether there may be any. */
  datatype Fate = Fate(kills: nat -> bool, ghost mortal: bool)

  type Host = h: Fate | h.mortal || forall n: nat :: !h.kills(n) witness Fate(n => false, true)

  class Process {
    const me: Inst
    const host: Host
    ghost const P: iset<World>
    var world: World
    var effects: nat

    ghost predicate Valid()
      reads this
    {
      me in world.relays && world in P && Lasting(P)
    }

    function Me(): Relay
      requires me in world.relays
      reads this
    {
      world.relays[me]
    }

    constructor (me: Inst, host: Host, ghost P: iset<World>, world: World)
      requires me in world.relays && world in P && Lasting(P)
      ensures Valid() && this.me == me && this.host == host && this.P == P && this.world == world
    {
      this.me := me;
      this.host := host;
      this.effects := 0;
      this.P := P;
      this.world := world;
    }

    /** Since `was` the directory only grew, and this process sent these removeKey calls. */
    predicate Asking(was: World, asked: seq<KeyId>)
      reads this
    {
      && me in was.relays && me in world.relays && Grows(was, world)
      && Me().ledger.asked == was.relays[me].ledger.asked + asked
    }

    /** ... and it sent none. */
    predicate Since(was: World)
      reads this
    {
      && me in was.relays && me in world.relays && Grows(was, world)
      && Me().ledger.asked == was.relays[me].ledger.asked
    }

    // ---------------------------------------------------------------- effects

    /** Any number of steps of other instances and of operators of other instances. */
    method Interfere()
      requires Valid()
      modifies this`world
      ensures Valid() && Me() == old(Me()) && Since(old(world))
    {
      var steps: nat := *;
      while steps > 0
        invariant Valid() && Me() == old(Me()) && Since(old(world))
      {
        var j: Inst := *;
        var e: Event := *;
        if j != me && Enabled(world, j, e) {
          FrameOf(world, Apply(world, j, e), j, e);
          assert Next(world, j, e).Some?;
          Stays(P, world, j, e);
          world := Apply(world, j, e);
        }
        steps := steps - 1;
      }
    }

    /** One event of this process, and then whatever the others do. */
    method Perform(e: Event)
      requires Valid() && Me().mem.Busy? && Next(world, me, e).Some?
      modifies this`world
      ensures Valid() && Grows(old(world), world)
      ensures e.PostRemove? || Since(old(world))
      ensures Me() == RelayAfter(old(world), old(Me()), e)
      ensures |KeysAfter(old(world), me, old(Me()), e)| <= |world.keys|
    {
      FrameOf(world, Next(world, me, e).value, me, e);
      world := Apply(world, me, e);
      assert world == Next(old(world), me, e).value;
      Interfere();
    }

    /** One effect of this process, or its death instead of it. */
    method Do(e: Event) returns (life: Life)
      requires Valid() && Me().mem.Busy? && Next(world, me, e).Some?
      modifies this
      ensures Valid() && Grows(old(world), world)
      ensures (e.PostRemove? && life.Alive?) || Since(old(world))
      ensures !host.mortal ==> life.Alive?
      ensures life.Alive? ==> Me() == RelayAfter(old(world), old(Me()), e)
      ensures life.Alive? ==> |KeysAfter(old(world), me, old(Me()), e)| <= |world.keys|
      ensures life.Died? ==> Me() == RelayAfter(old(world), old(Me()), Die)
    {
      var dies := host.kills(effects);
      effects := effects + 1;
      if dies {
        Perform(Die);
        return Died;
      }
      Perform(e);
      return Alive;
    }

    /** write_state: `e` is the event whose effect on the state file is `state`. */
    method WriteState(state: Saved, e: Event) returns (life: Life)
      requires Valid() && Me().mem.Busy? && Next(world, me, e).Some?
      requires SavedAfter(Me().saved, Me().mem, e) == state && !e.PostRemove?
      modifies this
      ensures Valid() && Since(old(world))
      ensures !host.mortal ==> life.Alive?
      ensures life.Alive? ==> Me() == RelayAfter(old(world), old(Me()), e) && Me().saved == state
      ensures life.Died? ==> Me() == RelayAfter(old(world), old(Me()), Die)
    {
      life := Do(e);
    }

    method Begin(job: Job)
      requires Valid() && Me().mem.Idle?
      modifies this
      ensures Valid() && Since(old(world))
      ensures At(Me(), old(Me().disk), old(Me().saved), NEW_RUN.(job := job)) && Me().mem.gone == {}
      ensures Me().named == old(Me()).named
    {
      assert Next(world, me, Boot(job)).Some?;
      FrameOf(world, Next(world, me, Boot(job)).value, me, Boot(job));
      world := Apply(world, me, Boot(job));
      assert world == Next(old(world), me, Boot(job)).value;
      Interfere();
    }

    method LoadLive() returns (life: Life)
      requires Valid() && Me().mem.Busy? && Me().mem.run == NEW_RUN.(job := Me().mem.run.job)
      requires Me().mem.run.job != Reset
      modifies this
      ensures Valid() && Since(old(world)) && Me().disk == old(Me().disk) && Me().saved == old(Me().saved)
      ensures Me().named == old(Me()).named
      ensures !host.mortal && Me().disk.liveKey.Holds? && Me().disk.liveCert.Holds? ==> life.Alive?
      ensures life.Alive? ==> Me().disk.liveKey.Holds? && Me().disk.liveCert.Holds?
      ensures life.Alive? ==>
                && Me().mem.Busy?
                && Me().mem.run == Loaded(old(Me().mem.run.job), Me().disk.liveKey.gen, Me().disk.liveCert.gen)
      ensures life.Died? ==> Me().mem.Idle?
    {
      if Me().disk.liveKey.Holds? && Me().disk.liveCert.Holds? {
        life := Do(Load);
      } else {
        life := Do(Die);
        life := Died;
      }
    }

    /** Poll until a 200 read does not show the key, at most twelve times. */
    method AwaitGone(k: KeyId, polls: nat -> Read) returns (life: Life, removed: bool)
      requires Valid() && Me().mem.Busy? && Me().mem.run.swap == 0 && k in Me().mem.posted
      modifies this
      ensures Valid() && Since(old(world)) && Me().disk == old(Me().disk) && Me().saved == old(Me().saved)
      ensures !host.mortal ==> life.Alive?
      ensures life.Alive? ==> Me().mem.Busy? && Me().mem.run == old(Me().mem.run)
      ensures life.Alive? ==> (removed <==> exists n: nat | n < 12 :: Lacks(polls(n)))
      ensures life.Alive? && removed ==> k in Me().mem.gone
      ensures life.Died? ==> Me().mem.Idle?
    {
      removed := false;
      for attempt := 0 to 12
        invariant Valid() && Since(old(world)) && Me() == old(Me())
        invariant forall n: nat | n < attempt :: !Lacks(polls(n))
      {
        var read := polls(attempt);
        if read.ok && !read.shown {
          :- Do(SeeGone(k));
          return Alive, true;
        }
        Interfere();
      }
      return Alive, false;
    }

    method PostRemoval(k: KeyId, why: Reason, hit: bool) returns (life: Life)
      requires Valid() && Me().mem.Busy? && MayRemove(world, me, Me(), Me().mem.run, k, why)
      modifies this
      ensures Valid() && Grows(old(world), world) && Me().disk == old(Me().disk) && Me().saved == old(Me().saved)
      ensures !host.mortal ==> life.Alive?
      ensures life.Alive? ==> Me().mem.Busy? && Me().mem.run == old(Me().mem.run) && k in Me().mem.posted
      ensures life.Alive? ==> Asking(old(world), [k])
      ensures life.Died? ==> Me().mem.Idle?
    {
      life := Do(PostRemove(k, why, hit));
    }

    /** remove_key: ask, then believe only a later read without the key. */
    method RemoveKey(k: KeyId, why: Reason, a: Removing) returns (life: Life, removed: bool)
      requires Valid() && Me().mem.Busy? && Me().mem.run.swap == 0 && MayRemove(world, me, Me(), Me().mem.run, k, why)
      modifies this
      ensures Valid() && Grows(old(world), world) && Me().disk == old(Me().disk) && Me().saved == old(Me().saved)
      ensures !host.mortal ==> life.Alive?
      ensures life.Alive? ==> Me().mem.Busy? && Me().mem.run == old(Me().mem.run)
      ensures life.Alive? ==> (removed <==> Removed(a))
      ensures life.Alive? ==> Asking(old(world), if a.token then [k] else [])
      ensures life.Alive? && removed ==> k in Me().mem.gone
      ensures life.Died? ==> Me().mem.Idle?
    {
      removed := false;
      if !a.token {
        return Alive, false;
      }
      :- PostRemoval(k, why, a.hit);
      if a.status != 200 && a.status != 204 && !a.gone {
        return Alive, false;
      }
      removed :- AwaitGone(k, a.polls);
      return Alive, removed;
    }

    // ------------------------------------------------------------------ files

    method CreateKeyFile(a: Area) returns (life: Life)
      requires Valid() && Me().mem.Busy? && MayWrite(Me(), Me().mem.run, a) && !Me().mem.run.begun
      requires a.Live? ==> Me().mem.run.moved == 2 || Me().disk.liveKey.Absent? || Me().disk.liveCert.Absent?
      modifies this
      ensures Valid() && Since(old(world)) && Me().saved == old(Me().saved)
      ensures !host.mortal ==> life.Alive?
      ensures life.Alive? ==> Me().disk == SetKey(old(Me().disk), a, Partial)
      ensures life.Alive? ==> Me().mem.Busy? && Me().mem.run == old(Me().mem.run).(begun := true)
      ensures life.Died? ==> Me().mem.Idle? && Me().disk == old(Me().disk)
    {
      life := Do(OpenKey(a));
    }

    /** Create the key file, then write it: a death between leaves it partial. */
    method WriteKeyFile(a: Area) returns (life: Life)
      requires Valid() && Me().mem.Busy? && MayWrite(Me(), Me().mem.run, a) && !Me().mem.run.begun
      requires a.Live? ==> Me().mem.run.moved == 2 || Me().disk.liveKey.Absent? || Me().disk.liveCert.Absent?
      modifies this
      ensures Valid() && Since(old(world)) && Me().saved == old(Me().saved)
      ensures !host.mortal ==> life.Alive?
      ensures Me().disk == SetKey(old(Me().disk), a, KeySlot(Me().disk, a))
      ensures life.Alive? ==> KeySlot(Me().disk, a) == StagedSlot(old(Me().mem.run))
      ensures life.Alive? ==> Me().mem.Busy? && Me().mem.run == old(Me().mem.run).(begun := true)
      ensures life.Died? ==> Me().mem.Idle?
    {
      life := Alive;
      :- CreateKeyFile(a);
      :- Do(WriteKey(a));
      return Alive;
    }

    method CreateCertFile(a: Area) returns (life: Life)
      requires Valid() && Me().mem.Busy? && MayWrite(Me(), Me().mem.run, a) && Me().mem.run.begun
      requires KeySlot(Me().disk, a) == StagedSlot(Me().mem.run)
      modifies this
      ensures Valid() && Since(old(world)) && Me().saved == old(Me().saved)
      ensures !host.mortal ==> life.Alive?
      ensures life.Alive? ==> Me().disk == SetCert(old(Me().disk), a, Partial)
      ensures life.Alive? ==> Me().mem.Busy? && Me().mem.run == old(Me().mem.run)
      ensures life.Died? ==> Me().mem.Idle? && Me().disk == old(Me().disk)
    {
      life := Do(OpenCert(a));
    }

    method WriteCertFile(a: Area) returns (life: Life)
      requires Valid() && Me().mem.Busy? && MayWrite(Me(), Me().mem.run, a) && Me().mem.run.begun
      requires KeySlot(Me().disk, a) == StagedSlot(Me().mem.run)
      modifies this
      ensures Valid() && Since(old(world)) && Me().saved == old(Me().saved)
      ensures !host.mortal ==> life.Alive?
      ensures Me().disk == SetCert(old(Me().disk), a, CertSlot(Me().disk, a))
      ensures life.Alive? ==> CertSlot(Me().disk, a) == StagedSlot(old(Me().mem.run))
      ensures life.Alive? ==> Me().mem.Busy? && Me().mem.run == old(Me().mem.run)
      ensures life.Died? ==> Me().mem.Idle?
    {
      life := Alive;
      :- CreateCertFile(a);
      :- Do(WriteCert(a));
      return Alive;
    }

    /** make_certificate: a pair with a thumbprint nobody has had. */
    method Generate(e: Event) returns (life: Life, g: Gen)
      requires Valid() && Me().mem.Busy? && (e.MakeCert? || e.MakeStandby?) && Next(world, me, e).Some?
      modifies this
      ensures Valid() && Since(old(world)) && Me().saved == old(Me().saved) && Me().disk == old(Me().disk)
      ensures !host.mortal ==> life.Alive?
      ensures old(|world.certs|) <= g
      ensures life.Alive? ==> Me().mem.Busy? && Me().mem.run == old(Me().mem.run).(staged := Some(g), made := true)
      ensures life.Died? ==> Me().mem.Idle?
    {
      g := |world.certs|;
      life := Do(e);
    }

    /** State writes that drop the addition or the removal. */
    method ForgetAddition(state: Saved, e: Event) returns (life: Life)
      requires Valid() && Me().mem.Busy? && Me().mem.run.job == Rotation && Me().mem.run.swap == 0
      requires Me().saved.addition.Some? && state == Me().saved.(addition := None)
      requires match e
               case ClearLive =>
                 && Me().mem.run.added.None? && Me().mem.run.staged.None?
                 && Me().mem.run.cur == Some(Me().saved.addition.value.thumb)
               case ClearGone =>
                 && (Me().mem.run.added.None? || Me().mem.run.recorded)
                 && Me().saved.addition.value.keyId in Me().mem.gone
               case _ => false
      modifies this
      ensures Valid() && Since(old(world)) && Me().disk == old(Me().disk)
      ensures !host.mortal ==> life.Alive?
      ensures life.Alive? ==> Me().mem == old(Me().mem) && Me().saved == state
      ensures life.Died? ==> Me().mem.Idle? && Me().saved == old(Me().saved)
    {
      life := WriteState(state, e);
    }

    method ForgetRemoval(state: Saved) returns (life: Life)
      requires Valid() && Me().mem.Busy? && Me().mem.run.job == Rotation
      requires Me().mem.run.added.None? && Me().mem.run.staged.None?
      requires Me().saved.removal.Some? && Me().saved.removal.value.keyId in Me().mem.gone
      requires state == Me().saved.(removal := None)
      modifies this
      ensures Valid() && Since(old(world)) && Me().disk == old(Me().disk)
      ensures !host.mortal ==> life.Alive?
      ensures life.Alive? ==> Me().mem == old(Me().mem) && Me().saved == state
      ensures life.Died? ==> Me().mem.Idle? && Me().saved == old(Me().saved)
    {
      life := WriteState(state, ClearRetired);
    }

    // --------------------------------------------------------------- rotation

    /** A key left by a rotation that never swapped: adopted if it is live now,
        otherwise removed; while it cannot be, nothing else may be added. */
    method SettleAddition(key: Gen, cur: Gen, a: Removing) returns (life: Life, settled: bool)
      requires Valid() && At(Me(), Me().disk, Me().saved, Loaded(Rotation, key, cur))
      modifies this
      ensures Valid() && Grows(old(world), world) && Me().disk == old(Me().disk)
      ensures !host.mortal ==> life.Alive?
      ensures life.Alive? ==> Me().mem.Busy? && Me().mem.run == Loaded(Rotation, key, cur)
      ensures life.Alive? ==>
                (settled <==> var left := old(Me().saved).addition; left.None? || left.value.thumb == cur || Removed(a))
      ensures life.Alive? ==> Asking(old(world), LeftoverAsks(old(Me().saved), cur, a))
      ensures life.Alive? ==> Me().saved == if settled then old(Me().saved).(addition := None) else old(Me().saved)
      ensures life.Alive? && settled && old(Me().saved).addition.Some? ==>
                var left := old(Me().saved).addition.value; left.thumb == cur || left.keyId in Me().mem.gone
      ensures life.Died? ==> Me().mem.Idle?
    {
      settled := true;
      var state := Me().saved;
      if state.addition.None? {
        return Alive, true;
      }
      if state.addition.value.thumb == cur {
        :- ForgetAddition(state.(addition := None), ClearLive);
      } else {
        settled :- RemoveKey(state.addition.value.keyId, Leftover, a);
        if settled {
          :- ForgetAddition(state.(addition := None), ClearGone);
        }
      }
      return Alive, settled;
    }

    /** Retire the replaced key once its grace period is over. */
    method RetireOld(key: Gen, cur: Gen, now: int, graceDays: int, a: Removing) returns (life: Life, removed: bool)
      requires Valid() && At(Me(), Me().disk, Me().saved, Loaded(Rotation, key, cur))
      modifies this
      ensures Valid() && Grows(old(world), world) && Me().disk == old(Me().disk)
      ensures !host.mortal ==> life.Alive?
      ensures life.Alive? ==> Me().mem.Busy? && Me().mem.run == Loaded(Rotation, key, cur)
      ensures life.Alive? ==>
                Me().saved == if removed then old(Me().saved).(removal := None) else old(Me().saved)
      ensures life.Alive? ==> (removed <==> GraceOver(old(Me().saved), now, graceDays) && Removed(a))
      ensures life.Alive? ==> Asking(old(world), RetiredAsks(old(Me().saved), now, graceDays, a))
      ensures life.Alive? && removed ==> old(Me().saved).removal.value.keyId in Me().mem.gone
      ensures life.Died? ==> Me().mem.Idle?
    {
      removed := false;
      var state := Me().saved;
      if state.removal.Some? && now - state.removal.value.rotatedAt >= graceDays * 86400 {
        removed :- RemoveKey(state.removal.value.keyId, Retired(now, graceDays), a);
        if removed {
          :- ForgetRemoval(state.(removal := None));
        }
      }
      return Alive, removed;
    }

    /** Write one fresh pair into the `.pem.new` files; nothing live is touched. */
    method StagePair(key: Gen, cur: Gen) returns (life: Life, g: Gen)
      requires Valid() && At(Me(), Me().disk, Me().saved, Loaded(Rotation, key, cur))
      requires Me().saved.addition.None?
      modifies this
      ensures Valid() && Since(old(world)) && Me().saved == old(Me().saved)
      ensures !host.mortal ==> life.Alive?
      ensures old(|world.certs|) <= g
      ensures life.Alive? ==> At(Me(), WithNew(old(Me().disk), g), old(Me().saved), Staged(key, cur, g))
      ensures life.Died? ==> Me().mem.Idle? && SameButNew(Me().disk, old(Me().disk))
    {
      g := 0;
      g :- Generate(MakeCert);
      :- WriteKeyFile(New);
      :- WriteCertFile(New);
      return Alive, g;
    }

    /** addKey: a 200 answer carries the new keyId; a refusal changes nothing; and
        a request whose answer is lost may have taken effect all the same. */
    method PostAddKey(key: Gen, cur: Gen, g: Gen, net: Net) returns (life: Life, k: Option<KeyId>)
      requires Valid() && At(Me(), Me().disk, Me().saved, Staged(key, cur, g))
      requires Me().saved.addition.None? && Me().disk.newKey == Holds(g) && Me().disk.newCert == Holds(g)
      modifies this
      ensures Valid() && Since(old(world)) && Me().disk == old(Me().disk) && Me().saved == old(Me().saved)
      ensures !host.mortal ==> (life.Alive? <==> net.addKey.Some?)
      ensures life.Alive? ==> net.addKey.Some? && (k.Some? <==> net.addKey == Some(200))
      ensures life.Alive? && k.Some? ==> |old(world).keys| <= k.value
      ensures life.Alive? ==> Me().mem.Busy? && Me().mem.run == Staged(key, cur, g).(added := k)
      ensures life.Died? ==> Me().mem.Idle?
    {
      k := None;
      if net.addKey.None? {
        life := Do(if net.applied then AddKeyUnanswered else Die);
        return Died, None;
      }
      if net.addKey.value == 200 {
        k := Some(|world.keys|);
        :- Do(AddKey);
      }
      return Alive, k;
    }

    method RecordAddition(key: Gen, cur: Gen, g: Gen, k: KeyId) returns (life: Life)
      requires Valid() && At(Me(), Me().disk, Me().saved, Staged(key, cur, g).(added := Some(k)))
      modifies this
      ensures Valid() && Since(old(world)) && Me().disk == old(Me().disk)
      ensures !host.mortal ==> life.Alive?
      ensures life.Alive? ==>
                At(Me(), old(Me().disk), old(Me().saved).(addition := Some(Addition(k, g))), Recorded(key, cur, g, k))
      ensures life.Died? ==> Me().mem.Idle? && Me().saved == old(Me().saved)
    {
      var state := Me().saved;
      life := WriteState(state.(addition := Some(Addition(k, g))), SaveAddition);
    }

    /** addKey and its record; `k` is None when the directory refused. */
    method AddToDirectory(key: Gen, cur: Gen, g: Gen, net: Net) returns (life: Life, k: Option<KeyId>)
      requires Valid() && At(Me(), Me().disk, Me().saved, Staged(key, cur, g))
      requires Me().saved.addition.None? && Me().disk.newKey == Holds(g) && Me().disk.newCert == Holds(g)
      modifies this
      ensures Valid() && Since(old(world)) && Me().disk == old(Me().disk)
      ensures !host.mortal && net.addKey.Some? ==> life.Alive?
      ensures life.Alive? ==> net.addKey.Some? && (k.Some? <==> net.addKey == Some(200))
      ensures life.Alive? && k.Some? ==> |old(world).keys| <= k.value
      ensures life.Alive? && k.Some? ==>
                At(Me(), old(Me().disk), old(Me().saved).(addition := Some(Addition(k.value, g))),
                   Recorded(key, cur, g, k.value))
      ensures life.Alive? && k.None? ==> At(Me(), old(Me().disk), old(Me().saved), Staged(key, cur, g))
      ensures life.Died? ==> Me().mem.Idle?
    {
      k := None;
      k :- PostAddKey(key, cur, g, net);
      if k.Some? {
        :- RecordAddition(key, cur, g, k.value);
      }
      return Alive, k;
    }

    method DropStaging() returns (life: Life)
      requires Valid() && Me().mem.Busy? && MayDrop(Me().mem.run, New)
      modifies this
      ensures Valid() && Since(old(world)) && Me().saved == old(Me().saved)
      ensures !host.mortal ==> life.Alive?
      ensures life.Alive? ==> Me().disk == old(Me().disk).(newKey := Absent, newCert := Absent)
      ensures life.Alive? ==> Me().mem == old(Me().mem)
      ensures life.Died? ==> Me().mem.Idle? && SameButNew(Me().disk, old(Me().disk))
    {
      life := Alive;
      :- Do(DropKey(New));
      :- Do(DropCert(New));
      return Alive;
    }

    /** Leave the old pair live and try to remove the unused key at once. */
    method Abandon(key: Gen, cur: Gen, g: Gen, k: KeyId, a: Removing) returns (life: Life, removed: bool)
      requires Valid() && Me().mem.Busy? && Me().mem.run.swap == 0 && Me().mem.run.job == Rotation
      requires Me().mem.run.cur == Some(cur) && Me().mem.run.recorded && Me().mem.run.added == Some(k)
      requires Me().saved.addition == Some(Addition(k, g))
      modifies this
      ensures Valid() && Grows(old(world), world)
      ensures !host.mortal ==> life.Alive?
      ensures SameButNew(Me().disk, old(Me().disk))
      ensures life.Alive? ==> Me().disk.newKey.Absent? && Me().disk.newCert.Absent?
      ensures life.Alive? ==> Me().saved == if removed then old(Me().saved).(addition := None) else old(Me().saved)
      ensures life.Alive? ==> Me().mem.Busy? && Me().mem.run == old(Me().mem.run)
      ensures life.Alive? ==> (removed <==> Removed(a))
      ensures life.Alive? ==> Asking(old(world), if a.token then [k] else [])
      ensures life.Alive? && removed ==> k in Me().mem.gone
      ensures life.Died? ==> Me().mem.Idle?
    {
      removed := false;
      var state := Me().saved;
      removed :- RemoveKey(k, Abandoned, a);
      if removed {
        :- ForgetAddition(state.(addition := None), ClearGone);
      }
      :- DropStaging();
      return Alive, removed;
    }

    /** Poll the directory until a 200 read shows the key, and give up after 24 reads. */
    method AwaitReplication(key: Gen, cur: Gen, g: Gen, k: KeyId, answers: nat -> Read)
      returns (life: Life, seen: bool, polls: nat)
      requires Valid() && At(Me(), Me().disk, Me().saved, Recorded(key, cur, g, k))
      modifies this
      ensures Valid() && Since(old(world))
      ensures !host.mortal ==> life.Alive?
      ensures Me().disk == old(Me().disk) && Me().saved == old(Me().saved)
      ensures life.Alive? ==> Me().mem.Busy? && Me().mem.run == Recorded(key, cur, g, k).(visible := seen)
      ensures life.Alive? ==> if seen then 1 <= polls <= 24 && Shows(answers(polls - 1)) else polls == 24
      ensures life.Alive? ==> !SeenBefore(answers, if seen then polls - 1 else polls)
      ensures life.Died? ==> Me().mem.Idle?
    {
      seen, polls := false, 0;
      while polls < 24
        invariant polls <= 24 && Valid() && Since(old(world)) && Me() == old(Me())
        invariant !SeenBefore(answers, polls)
      {
        var read := answers(polls);
        polls := polls + 1;
        if read.ok && read.shown {
          :- Do(SeeKey);
          return Alive, true, polls;
        }
        Interfere();
      }
      return Alive, false, polls;
    }

    /** Mint with the new pair until the token service accepts it, and give up after
        twenty requests. */
    method ProveToken(key: Gen, cur: Gen, g: Gen, k: KeyId, mints: nat -> bool)
      returns (life: Life, minted: bool, tries: nat)
      requires Valid() && At(Me(), Me().disk, Me().saved, Recorded(key, cur, g, k).(visible := true))
      modifies this
      ensures Valid() && Since(old(world))
      ensures !host.mortal ==> life.Alive?
      ensures Me().disk == old(Me().disk) && Me().saved == old(Me().saved)
      ensures life.Alive? ==>
                Me().mem.Busy? && Me().mem.run == Recorded(key, cur, g, k).(visible := true, minted := minted)
      ensures life.Alive? ==> if minted then 1 <= tries <= 20 && mints(tries - 1) else tries == 20
      ensures life.Alive? ==> !MintedBefore(mints, if minted then tries - 1 else tries)
      ensures life.Died? ==> Me().mem.Idle?
    {
      minted, tries := false, 0;
      while tries < 20
        invariant tries <= 20 && Valid() && Since(old(world)) && Me() == old(Me())
        invariant !MintedBefore(mints, tries)
      {
        var ok := mints(tries);
        tries := tries + 1;
        if ok {
          :- Do(MintStaged);
          return Alive, true, tries;
        }
        Interfere();
      }
      return Alive, false, tries;
    }

    /** Send the proof message; `accepted` is the server's answer.  Recovery without a
        recipient goes on without a proof. */
    method ProveSend(recipient: bool, accepted: bool) returns (life: Life, sent: bool)
      requires Valid() && Me().mem.Busy? && Me().mem.run.minted && Me().mem.run.swap == 0
      requires !Me().mem.run.proven && (recipient || Me().mem.run.job == Recovery)
      modifies this
      ensures Valid() && Since(old(world))
      ensures !host.mortal ==> life.Alive?
      ensures Me().disk == old(Me().disk) && Me().saved == old(Me().saved)
      ensures life.Alive? ==> Me().mem.Busy? && Me().mem.run == old(Me().mem.run).(proven := sent)
      ensures life.Alive? ==> (sent <==> recipient ==> accepted)
      ensures life.Died? ==> Me().mem.Idle?
    {
      sent := accepted || !recipient;
      if sent {
        :- Do(Prove(recipient, recipient));
      }
      return Alive, sent;
    }

    /** One of the four renames. */
    method Rename(n: nat) returns (life: Life)
      requires Valid() && Me().mem.Busy? && MaySwap(Me(), Me().mem.run, n)
      modifies this
      ensures Valid() && Since(old(world)) && Me().saved == old(Me().saved)
      ensures !host.mortal ==> life.Alive?
      ensures life.Alive? ==> Me().disk == SwapDisk(old(Me().disk), old(Me().mem.run.job), n)
      ensures life.Alive? ==> Me().mem.Busy? && Me().mem.run == old(Me().mem.run).(swap := n)
      ensures life.Alive? && n < 4 ==> MaySwap(Me(), Me().mem.run, n + 1)
      ensures life.Died? ==> Me().mem.Idle? && Me().disk == old(Me().disk)
    {
      life := Do(Swap(n));
    }

    /** The old key and certificate aside. */
    method MoveOut() returns (life: Life)
      requires Valid() && Me().mem.Busy? && MaySwap(Me(), Me().mem.run, 1)
      modifies this
      ensures Valid() && Since(old(world)) && Me().saved == old(Me().saved)
      ensures !host.mortal ==> life.Alive?
      ensures life.Alive? ==> Me().disk == MovedOut(old(Me().disk))
      ensures life.Alive? ==> Me().mem.Busy? && Me().mem.run == old(Me().mem.run).(swap := 2)
      ensures life.Alive? ==> MaySwap(Me(), Me().mem.run, 3)
      ensures life.Died? ==> Me().mem.Idle?
      ensures life.Died? ==>
                Me().disk == old(Me().disk) || Me().disk == SwapDisk(old(Me().disk), old(Me().mem.run.job), 1)
    {
      life := Alive;
      :- Rename(1);
      :- Rename(2);
      return Alive;
    }

    /** The proven pair in. */
    method MoveIn(a: Area) returns (life: Life)
      requires Valid() && Me().mem.Busy? && MaySwap(Me(), Me().mem.run, 3) && a == Staging(Me().mem.run.job)
      modifies this
      ensures Valid() && Since(old(world)) && Me().saved == old(Me().saved)
      ensures !host.mortal ==> life.Alive?
      ensures life.Alive? ==> Me().disk == MovedIn(old(Me().disk), a)
      ensures life.Alive? ==> Me().mem.Busy? && Me().mem.run == old(Me().mem.run).(swap := 4)
      ensures life.Died? ==> Me().mem.Idle?
      ensures life.Died? ==>
                Me().disk == old(Me().disk) || Me().disk == SwapDisk(old(Me().disk), old(Me().mem.run.job), 3)
    {
      life := Alive;
      :- Rename(3);
      :- Rename(4);
      return Alive;
    }

    /** The swap: old key and certificate aside, then the proven pair in. */
    method SwapIn(a: Area) returns (life: Life)
      requires Valid() && Me().mem.Busy? && MaySwap(Me(), Me().mem.run, 1) && a == Staging(Me().mem.run.job)
      modifies this
      ensures Valid() && Since(old(world)) && Me().saved == old(Me().saved)
      ensures !host.mortal ==> life.Alive?
      ensures life.Alive? ==> Me().disk == Swapped(old(Me().disk), a)
      ensures life.Alive? ==> Me().mem.Busy? && Me().mem.run == old(Me().mem.run).(swap := 4)
      ensures life.Died? ==> Me().mem.Idle? && InSwap(old(Me().disk), old(Me().mem.run.job), Me().disk)
    {
      life := Alive;
      :- MoveOut();
      life := MoveIn(a);
    }

    /** Match by thumbprint, skipping one key. */
    method FindByThumbprint(view: seq<KeyId>, thumb: Gen, skip: Option<KeyId>) returns (found: Option<KeyId>)
      ensures FirstFit(world.keys, view, thumb, skip, found)
    {
      for n := 0 to |view|
        invariant forall k | k in view[..n] :: !Fits(world.keys, k, thumb, skip)
      {
        if Fits(world.keys, view[n], thumb, skip) {
          return Some(view[n]);
        }
      }
      return None;
    }

    /** Schedule the replaced key's removal for a later run, matching it by the
        thumbprint of the certificate this run replaced, never by position; `listing` is
        what the read showed, nothing when it was not answered with 200. */
    method ScheduleRetirement(cur: Gen, now: int, listing: seq<KeyId>) returns (life: Life, found: Option<KeyId>)
      requires Valid() && Me().mem.Busy? && Me().mem.run.job == Rotation
      requires Me().mem.run.swap == 4 && Me().mem.run.cur == Some(cur) && Me().mem.run.added.Some?
      requires Me().saved.addition.Some?
      modifies this
      ensures Valid() && Since(old(world)) && Me().disk == old(Me().disk)
      ensures !host.mortal ==> life.Alive?
      ensures life.Alive? ==> Me().saved == Schedule(old(Me().saved).(addition := None), found, cur, now)
      ensures life.Alive? ==> FirstFit(old(world).keys, listing, cur, old(Me().mem.run.added), found)
      ensures life.Alive? ==> Me().mem.Busy? && Me().mem.run == old(Me().mem.run)
      ensures life.Died? ==> Me().mem.Idle? && Me().saved == old(Me().saved)
    {
      var state := Me().saved.(addition := None);
      found := FindByThumbprint(listing, cur, Me().mem.run.added);
      life := WriteState(Schedule(state, found, cur, now), SaveRotated(found, now));
    }

    /** Steps 4 and 5: the key is visible, mints, and its proof is accepted. */
    method ProveNewPair(key: Gen, cur: Gen, g: Gen, k: KeyId, net: Net) returns (life: Life, ok: bool)
      requires Valid() && At(Me(), Me().disk, Me().saved, Recorded(key, cur, g, k))
      modifies this
      ensures Valid() && Since(old(world))
      ensures !host.mortal ==> life.Alive?
      ensures Me().disk == old(Me().disk) && Me().saved == old(Me().saved)
      ensures life.Alive? ==> (ok <==> Proves(net))
      ensures life.Alive? && ok ==> Me().mem.Busy? && Me().mem.run == Proven(key, cur, g, k)
      ensures life.Alive? && !ok ==>
                && Me().mem.Busy? && Me().mem.run.job == Rotation && Me().mem.run.swap == 0
                && Me().mem.run.recorded && Me().mem.run.cur == Some(cur) && Me().mem.run.added == Some(k)
      ensures life.Died? ==> Me().mem.Idle?
    {
      ok := false;
      var polls, tries := 0, 0;
      ok, polls :- AwaitReplication(key, cur, g, k, net.visible);
      if ok {
        ok, tries :- ProveToken(key, cur, g, k, net.mints);
        if ok {
          ok :- ProveSend(true, net.accepted);
        }
      }
      return Alive, ok;
    }

    method Close() returns (life: Life)
      requires Valid() && Me().mem.Busy? && (Me().mem.run.added.None? || Me().mem.run.recorded)
      requires Me().mem.run.swap == 0 || (Me().mem.run.swap == 4 && !Unscheduled(Me().saved, Me().mem.run))
      modifies this
      ensures Valid() && Since(old(world))
      ensures !host.mortal ==> life.Alive?
      ensures Me().disk == old(Me().disk) && Me().saved == old(Me().saved) && Me().mem.Idle?
    {
      life := Do(Finish);
    }

    /** The swap and its bookkeeping, once the new pair is proven. */
    method Adopt(key: Gen, cur: Gen, g: Gen, k: KeyId, now: int, listing: seq<KeyId>)
      returns (life: Life, found: Option<KeyId>)
      requires Valid() && At(Me(), Me().disk, Me().saved, Proven(key, cur, g, k))
      requires Me().saved.addition == Some(Addition(k, g))
      requires Me().disk.newKey == Holds(g) && Me().disk.newCert == Holds(g)
      modifies this
      ensures Valid() && Since(old(world))
      ensures !host.mortal ==> life.Alive?
      ensures life.Alive? ==> Me().mem.Idle? && Me().disk == Swapped(old(Me().disk), New)
      ensures life.Alive? ==> Me().saved == Schedule(old(Me().saved).(addition := None), found, cur, now)
      ensures life.Alive? ==> FoundIn(old(world), world, listing, cur, Some(k), found)
      ensures life.Died? ==> Me().mem.Idle? && InSwap(old(Me().disk), Rotation, Me().disk)
    {
      found := None;
      :- SwapIn(New);
      ghost var mid := world.keys;
      found :- ScheduleRetirement(cur, now, listing);
      assert FirstFit(mid, listing, cur, Some(k), found);
      life := Close();
      return Alive, found;
    }

    method ProveAndAdopt(key: Gen, cur: Gen, g: Gen, k: KeyId, now: int, net: Net)
      returns (life: Life, end: RotationEnd)
      requires Valid() && At(Me(), Me().disk, Me().saved, Recorded(key, cur, g, k))
      requires Me().saved.addition == Some(Addition(k, g))
      requires Me().disk.newKey == Holds(g) && Me().disk.newCert == Holds(g)
      modifies this
      ensures Valid() && Grows(old(world), world) && Me().mem.Idle?
      ensures !host.mortal ==> life.Alive?
      ensures life.Alive? ==> if Proves(net) then end.Rotated? else end == GaveUp(g, k, Removed(net.abandoned))
      ensures life.Alive? ==> Asking(old(world), if end.GaveUp? && net.abandoned.token then [k] else [])
      ensures life.Alive? && end.GaveUp? ==> Me().disk == old(Me().disk).(newKey := Absent, newCert := Absent)
      ensures life.Alive? && end.GaveUp? ==>
                Me().saved == if end.removed then old(Me().saved).(addition := None) else old(Me().saved)
      ensures life.Alive? && end.Rotated? ==>
                && end.g == g && end.key == k && Me().disk == Swapped(old(Me().disk), New)
                && Me().saved == Schedule(old(Me().saved).(addition := None), end.found, cur, now)
                && FoundIn(old(world), world, net.listing, cur, Some(k), end.found)
      ensures life.Died? ==> SameButNew(Me().disk, old(Me().disk)) || InSwap(old(Me().disk), Rotation, Me().disk)
    {
      end := Refused;
      var ok :- ProveNewPair(key, cur, g, k, net);
      if ok {
        ghost var mid := world;
        var found :- Adopt(key, cur, g, k, now, net.listing);
        FoundSince(old(world), mid, world, net.listing, cur, Some(k), found);
        return Alive, Rotated(g, k, found);
      }
      var removed :- Abandon(key, cur, g, k, net.abandoned);
      life := Close();
      return Alive, GaveUp(g, k, removed);
    }

    /** Steps 2 to 7: stage, add, prove, and only then swap. */
    method Renew(key: Gen, cur: Gen, now: int, net: Net) returns (life: Life, end: RotationEnd)
      requires Valid() && At(Me(), Me().disk, Me().saved, Loaded(Rotation, key, cur))
      requires Me().saved.addition.None?
      modifies this
      ensures Valid() && Grows(old(world), world) && Me().mem.Idle?
      ensures !host.mortal && net.addKey.Some? ==> life.Alive?
      ensures life.Alive? ==>
                && net.addKey.Some?
                && (end.Refused? <==> net.addKey != Some(200))
                && (end.Rotated? <==> net.addKey == Some(200) && Proves(net))
                && (end.GaveUp? <==> net.addKey == Some(200) && !Proves(net))
      ensures life.Alive? && !end.Refused? ==> |old(world).certs| <= end.g && |old(world).keys| <= end.key
      ensures life.Alive? ==> Asking(old(world), if end.GaveUp? && net.abandoned.token then [end.key] else [])
      ensures life.Alive? && !end.Rotated? ==> Me().disk == old(Me().disk).(newKey := Absent, newCert := Absent)
      ensures life.Alive? && end.Refused? ==> Me().saved == old(Me().saved)
      ensures life.Alive? && end.GaveUp? ==>
                && end.removed == Removed(net.abandoned)
                && Me().saved == old(Me().saved).(
                     addition := if end.removed then None else Some(Addition(end.key, end.g)))
      ensures life.Alive? && end.Rotated? ==>
                && Me().disk == Swapped(WithNew(old(Me().disk), end.g), New)
                && Me().saved == Schedule(old(Me().saved), end.found, cur, now)
                && FoundIn(old(world), world, net.listing, cur, Some(end.key), end.found)
      ensures life.Died? ==> DiesSafely(old(Me().disk), Me().disk)
    {
      end := Refused;
      var g :- StagePair(key, cur);
      var k :- AddToDirectory(key, cur, g, net);
      if k.None? {
        :- DropStaging();
        life := Close();
        return Alive, Refused;
      }
      ghost var mid := world;
      end :- ProveAndAdopt(key, cur, g, k.value, now, net);
      if end.Rotated? {
        FoundSince(old(world), mid, world, net.listing, cur, Some(end.key), end.found);
      }
      return Alive, end;
    }

    /** Housekeeping: a leftover key first, and then a key past its grace period. */
    method HouseKeep(key: Gen, cur: Gen, o: Settings, net: Net) returns (life: Life, settled: bool)
      requires Valid() && At(Me(), Me().disk, Me().saved, Loaded(Rotation, key, cur))
      modifies this
      ensures Valid() && Grows(old(world), world) && Me().disk == old(Me().disk)
      ensures !host.mortal ==> life.Alive?
      ensures life.Alive? ==> Me().mem.Busy? && Me().mem.run == Loaded(Rotation, key, cur)
      ensures life.Alive? ==>
                (settled <==> var left := old(Me().saved).addition;
                   left.None? || left.value.thumb == cur || Removed(net.leftover))
      ensures life.Alive? ==>
                Asking(old(world),
                       LeftoverAsks(old(Me().saved), cur, net.leftover) +
                       if settled then RetiredAsks(old(Me().saved), o.now, o.graceDays, net.retired) else [])
      ensures life.Alive? ==>
                var s := old(Me().saved);
                Me().saved == if !settled then s
                              else if GraceOver(s, o.now, o.graceDays) && Removed(net.retired)
                              then s.(addition := None, removal := None)
                              else s.(addition := None)
      ensures life.Died? ==> Me().mem.Idle?
    {
      settled :- SettleAddition(key, cur, net.leftover);
      if settled {
        var retired :- RetireOld(key, cur, o.now, o.graceDays, net.retired);
      }
      return Alive, settled;
    }

    /** A rotation if one is due, once the housekeeping is done. */
    method RotateIfDue(key: Gen, cur: Gen, o: Settings, net: Net) returns (life: Life, end: RotationEnd)
      requires Valid() && At(Me(), Me().disk, Me().saved, Loaded(Rotation, key, cur)) && Me().saved.addition.None?
      modifies this
      ensures Valid() && Grows(old(world), world) && Me().mem.Idle?
      ensures !host.mortal && net.addKey.Some? ==> life.Alive?
      ensures life.Died? ==> DiesSafely(old(Me().disk), Me().disk)
      ensures life.Alive? ==> RotationEnds(old(Me().saved), cur, o, net, end)
      ensures life.Alive? ==> RotationNames(old(world), world, cur, net, end)
      ensures life.Alive? ==> Asking(old(world), if end.GaveUp? && net.abandoned.token then [end.key] else [])
      ensures life.Alive? ==> Me().disk == RotationDisk(old(Me().disk), end)
      ensures life.Alive? ==>
                Me().saved == old(Me().saved).(
                  addition := if end.GaveUp? && !Removed(net.abandoned) then Some(Addition(end.key, end.g)) else None,
                  removal := if end.Rotated? && end.found.Some? then Some(Removal(end.found.value, cur, o.now))
                             else old(Me().saved).removal)
    {
      if o.remaining > o.renewAt && !o.force {
        end := NotDue;
      } else if o.remaining <= 0 {
        end := Expired;
      } else if !o.recipient {
        end := NoRecipient;
      } else {
        life, end := Renew(key, cur, o.now, net);
        return life, end;
      }
      life := Close();
      return Alive, end;
    }

    /** Both, on the loaded live pair. */
    method RotateLoaded(key: Gen, cur: Gen, o: Settings, net: Net) returns (life: Life, end: RotationEnd)
      requires Valid() && At(Me(), Me().disk, Me().saved, Loaded(Rotation, key, cur))
      modifies this
      ensures Valid() && Grows(old(world), world) && Me().mem.Idle?
      ensures !host.mortal && net.addKey.Some? ==> life.Alive?
      ensures life.Died? ==> DiesSafely(old(Me().disk), Me().disk)
      ensures life.Alive? ==> RotationEnds(old(Me().saved), cur, o, net, end)
      ensures life.Alive? ==> RotationNames(old(world), world, cur, net, end)
      ensures life.Alive? ==> Asking(old(world), RotationAsks(old(Me().saved), cur, o, net, end))
      ensures life.Alive? ==> Me().saved == RotationSaved(old(Me().saved), cur, o, net, end)
      ensures life.Alive? ==> Me().disk == RotationDisk(old(Me().disk), end)
    {
      end := StillPending;
      var settled :- HouseKeep(key, cur, o, net);
      if !settled {
        life := Close();
        return Alive, StillPending;
      }
      ghost var mid := world;
      end :- RotateIfDue(key, cur, o, net);
      NamesSince(old(world), mid, world, cur, net, end);
      return Alive, end;
    }

    /** main, without a sub-command: housekeeping, then a rotation if one is due. */
    method Rotate(o: Settings, net: Net) returns (life: Life, end: RotationEnd)
      requires Valid() && Me().mem.Idle?
      modifies this
      ensures Valid() && Grows(old(world), world) && Me().mem.Idle?
      ensures !host.mortal && net.addKey.Some? && old(Me().disk).liveKey.Holds? && old(Me().disk).liveCert.Holds? ==>
                life.Alive?
      ensures life.Died? ==> DiesSafely(old(Me().disk), Me().disk)
      ensures life.Alive? ==> old(Me().disk).liveKey.Holds? && old(Me().disk).liveCert.Holds?
      ensures life.Alive? ==>
                var cur := old(Me().disk).liveCert.gen;
                && RotationEnds(old(Me().saved), cur, o, net, end)
                && RotationNames(old(world), world, cur, net, end)
                && Asking(old(world), RotationAsks(old(Me().saved), cur, o, net, end))
                && Me().saved == RotationSaved(old(Me().saved), cur, o, net, end)
                && Me().disk == RotationDisk(old(Me().disk), end)
    {
      end := StillPending;
      Begin(Rotation);
      :- LoadLive();
      var key, cur := Me().disk.liveKey.gen, Me().disk.liveCert.gen;
      ghost var mid := world;
      end :- RotateLoaded(key, cur, o, net);
      NamesSince(old(world), mid, world, cur, net, end);
      return Alive, end;
    }

    // ------------------------------------------------------- removal by hand

    /** --remove-key: classify the key from a read, refuse across ownership. */
    method RemoveByHand(k: KeyId, yes: bool, override: bool, read: Read, a: Removing) returns (life: Life, end: HandEnd)
      requires Valid() && Me().mem.Idle?
      modifies this
      ensures Valid() && Grows(old(world), world) && Me().mem.Idle?
      ensures !host.mortal && old(Me().disk).liveKey.Holds? && old(Me().disk).liveCert.Holds? ==> life.Alive?
      ensures Me().disk == old(Me().disk) && Me().saved == old(Me().saved)
      ensures life.Alive? ==> (end.Unread? <==> !read.ok)
      ensures life.Alive? ==> (end.NotThere? ==> read.ok && (!read.shown || k >= |old(world).keys|))
      ensures life.Alive? && (end.Asked? || end.Forbidden?) ==>
                && read.ok && read.shown && k < |world.keys| && old(Me().disk).liveCert.Holds?
                && end.kind == Classify(world.keys[k], Some(old(Me().disk).liveCert.gen), me, old(Me()).named,
                                        IsRetiring(old(Me().saved), k))
                && (end.Asked? <==> LetThrough(old(Me()), me, world.keys[k], k, yes, override))
      ensures life.Alive? ==> Asking(old(world), if end.Asked? && a.token then [k] else [])
      ensures life.Alive? && end.Asked? ==> end.removed == Removed(a)
    {
      end := Unread;
      Begin(HandRemoval);
      :- LoadLive();
      if read.ok && (!read.shown || k >= |world.keys|) {
        end := NotThere;
      } else if read.ok {
        var kind := Classify(world.keys[k], Me().mem.run.cur, me, Me().named, IsRetiring(Me().saved, k));
        if Permitted(kind, yes, override) {
          var removed :- RemoveKey(k, ByHand(yes, override), a);
          end := Asked(kind, removed);
        } else {
          end := Forbidden(kind);
        }
      }
      life := Close();
      return Alive, end;
    }

    // ------------------------------------------------------------------ reset

    method MoveAside() returns (life: Life)
      requires Valid() && Me().mem.Busy? && Me().mem.run == NEW_RUN.(job := Reset)
      requires !Me().disk.liveKey.Absent? && !Me().disk.liveCert.Absent?
      modifies this
      ensures Valid() && Since(old(world)) && Me().saved == old(Me().saved)
      ensures !host.mortal ==> life.Alive?
      ensures life.Alive? ==>
                Me().disk == old(Me().disk).(prevKey := old(Me().disk.liveKey), prevCert := old(Me().disk.liveCert),
                                             liveKey := Absent, liveCert := Absent)
      ensures life.Alive? ==> Me().mem.Busy? && Me().mem.run == NEW_RUN.(job := Reset, moved := 2)
      ensures life.Died? ==> Me().mem.Idle?
    {
      life := Alive;
      :- Do(MoveLiveKey);
      :- Do(MoveLiveCert);
      return Alive;
    }

    /** Drop the half-finished bookkeeping the old credentials stood behind. */
    method ForgetPending() returns (life: Life)
      requires Valid() && Me().mem.Busy? && Me().mem.run.job == Reset && Me().mem.run.staged.Some?
      requires Me().mem.run.begun && Me().disk.liveKey == Me().disk.liveCert == StagedSlot(Me().mem.run)
      modifies this
      ensures Valid() && Since(old(world)) && Me().disk == old(Me().disk)
      ensures !host.mortal ==> life.Alive?
      ensures life.Alive? ==> Me().saved == old(Me().saved).(addition := None, removal := None, recovery := None)
      ensures life.Alive? ==> Me().mem == old(Me().mem)
      ensures life.Died? ==> Me().mem.Idle?
    {
      var state := Me().saved;
      life := WriteState(state.(addition := None, removal := None, recovery := None), SaveReset);
    }

    /** The fresh pair of a reset, and the state file that goes with it. */
    method WriteFresh() returns (life: Life, g: Gen)
      requires Valid() && Me().mem.Busy?
      requires Me().mem.run == NEW_RUN.(job := Reset, moved := 0) || Me().mem.run == NEW_RUN.(job := Reset, moved := 2)
      requires Me().mem.run.moved == 2 || Me().disk.liveKey.Absent? || Me().disk.liveCert.Absent?
      modifies this
      ensures Valid() && Since(old(world))
      ensures !host.mortal ==> life.Alive?
      ensures life.Alive? ==>
                && Me().mem.Busy? && Me().mem.run.added.None? && Me().mem.run.swap == 0
                && |old(world).certs| <= g && Me().disk == old(Me().disk).(liveKey := Holds(g), liveCert := Holds(g))
                && Me().saved == old(Me().saved).(addition := None, removal := None, recovery := None)
      ensures life.Died? ==> Me().mem.Idle?
    {
      g := 0;
      g :- Generate(MakeCert);
      :- WriteKeyFile(Live);
      :- WriteCertFile(Live);
      :- ForgetPending();
      return Alive, g;
    }

    /** --reset: the old pair aside if it is whole, a fresh pair in its place. */
    method ResetPair() returns (life: Life, g: Gen)
      requires Valid() && Me().mem.Idle?
      modifies this
      ensures Valid() && Since(old(world)) && Me().mem.Idle?
      ensures !host.mortal ==> life.Alive?
      ensures life.Alive? ==>
                && |old(world).certs| <= g
                && Me().saved == old(Me().saved).(addition := None, removal := None, recovery := None)
                && Me().disk == AsideIfWhole(old(Me().disk)).(liveKey := Holds(g), liveCert := Holds(g))
    {
      g := 0;
      Begin(Reset);
      if !Me().disk.liveKey.Absent? && !Me().disk.liveCert.Absent? {
        :- MoveAside();
      }
      g :- WriteFresh();
      life := Close();
      return Alive, g;
    }

    // --------------------------------------------------------------- recovery

    /** A healthy pass with no standby: drop the streak, or failing that the clock. */
    method ClearHealthy() returns (life: Life)
      requires Valid() && Me().mem.Busy? && Me().mem.run.job == Recovery && Me().mem.run.liveOk
      requires Me().saved.recovery.None?
      modifies this
      ensures Valid() && Since(old(world)) && Me().disk == old(Me().disk)
      ensures !host.mortal ==> life.Alive?
      ensures life.Alive? ==> Me().saved == ClearStreak(old(Me().saved)) && Me().mem == old(Me().mem)
      ensures life.Died? ==> Me().mem.Idle? && Me().saved == old(Me().saved)
    {
      var state := Me().saved;
      if state.streak.Some? {
        state := state.(streak := None);
      } else {
        state := state.(since := None);
      }
      life := WriteState(state, SaveHealthy);
    }

    method DropStandby() returns (life: Life)
      requires Valid() && Me().mem.Busy? && MayDrop(Me().mem.run, Rec)
      modifies this
      ensures Valid() && Since(old(world)) && Me().saved == old(Me().saved)
      ensures !host.mortal ==> life.Alive?
      ensures Me().disk == old(Me().disk).(recKey := Me().disk.recKey, recCert := Me().disk.recCert)
      ensures life.Alive? ==> Me().disk.recKey.Absent? && Me().disk.recCert.Absent? && Me().mem == old(Me().mem)
      ensures life.Died? ==> Me().mem.Idle?
    {
      life := Alive;
      :- Do(DropKey(Rec));
      :- Do(DropCert(Rec));
      return Alive;
    }

    /** _discard_standby and the state write after it. */
    method DiscardStandby() returns (life: Life)
      requires Valid() && Me().mem.Busy? && Me().mem.run.job == Recovery && Me().mem.run.liveOk
      requires Me().mem.run.swap == 0 && Me().saved.recovery.Some?
      modifies this
      ensures Valid() && Since(old(world))
      ensures !host.mortal ==> life.Alive?
      ensures Me().disk == old(Me().disk).(recKey := Me().disk.recKey, recCert := Me().disk.recCert)
      ensures life.Alive? ==> Me().disk.recKey.Absent? && Me().disk.recCert.Absent?
      ensures life.Alive? ==> Me().saved == Settle(old(Me().saved)) && Me().mem == old(Me().mem)
      ensures life.Died? ==> Me().mem.Idle?
    {
      var state := Me().saved;
      :- DropStandby();
      life := WriteState(Settle(state), SaveDiscard);
    }

    /** Count this certificate fault in the state file. */
    method CountLiveFault(now: int) returns (life: Life)
      requires Valid() && Me().mem.Busy? && Me().mem.run.job == Recovery && Me().mem.run.liveFault
      requires !Me().mem.run.counted && Me().saved.recovery.None? && 0 < now
      modifies this
      ensures Valid() && Since(old(world)) && Me().disk == old(Me().disk)
      ensures !host.mortal ==> life.Alive?
      ensures life.Alive? ==> Me().saved == CountFault(old(Me().saved), now)
      ensures life.Alive? ==> Me().mem.Busy? && Me().mem.run == old(Me().mem.run).(counted := true)
      ensures life.Died? ==> Me().mem.Idle? && Me().saved == old(Me().saved)
    {
      var state := Me().saved;
      var streak := state.streak.GetOr(0) + 1;
      var since := if state.since.GetOr(0) != 0 then state.since.value else now;
      life := WriteState(state.(streak := Some(streak), since := Some(since)), SaveFault(now));
    }

    method RecordStandby(g: Gen) returns (life: Life)
      requires Valid() && Me().mem.Busy? && Me().mem.run.job == Recovery && Me().mem.run.made
      requires Me().mem.run.staged == Some(g) && Me().saved.recovery.None?
      requires Me().disk.recKey == Me().disk.recCert == Holds(g)
      modifies this
      ensures Valid() && Since(old(world)) && Me().disk == old(Me().disk)
      ensures !host.mortal ==> life.Alive?
      ensures life.Alive? ==> Me().saved == old(Me().saved).(recovery := Some(g)) && Me().mem == old(Me().mem)
      ensures life.Died? ==> Me().mem.Idle?
    {
      var state := Me().saved;
      life := WriteState(state.(recovery := Some(g)), SaveStandby);
    }

    /** _generate_standby: one fresh pair into the `.recovery` files, then its record. */
    method GenerateStandby(key: Gen, cur: Gen, p: Pass) returns (life: Life, g: Gen)
      requires Valid() && Me().mem.Busy?
      requires Me().mem.run == Loaded(Recovery, key, cur).(liveFault := true, counted := true)
      requires Me().saved.recovery.None? && GateOpen(Me().saved, p)
      modifies this
      ensures Valid() && Since(old(world)) && Me().mem.Idle?
      ensures !host.mortal ==> life.Alive?
      ensures Me().disk == old(Me().disk).(recKey := Me().disk.recKey, recCert := Me().disk.recCert)
      ensures life.Alive? ==>
                && |old(world).certs| <= g && Me().disk.recKey == Me().disk.recCert == Holds(g)
                && Me().saved == old(Me().saved).(recovery := Some(g))
    {
      g := 0;
      g :- Generate(MakeStandby(p.checkedAt, p.needStreak, p.needSeconds));
      :- WriteKeyFile(Rec);
      :- WriteCertFile(Rec);
      :- RecordStandby(g);
      life := Close();
      return Alive, g;
    }

    /** The bookkeeping of an adoption; finding the old key is best effort. */
    method ScheduleOldKey(cur: Gen, now: int, listing: seq<KeyId>) returns (life: Life, found: Option<KeyId>)
      requires Valid() && Me().mem.Busy? && Me().mem.run.job == Recovery
      requires Me().mem.run.swap == 4 && Me().mem.run.cur == Some(cur) && Me().saved.recovery.Some?
      modifies this
      ensures Valid() && Since(old(world)) && Me().disk == old(Me().disk)
      ensures !host.mortal ==> life.Alive?
      ensures life.Alive? ==> FirstFit(old(world).keys, listing, cur, None, found)
      ensures life.Alive? ==> Me().saved == Schedule(Settle(old(Me().saved)), found, cur, now)
      ensures life.Alive? ==> Me().mem == old(Me().mem)
      ensures life.Died? ==> Me().mem.Idle? && Me().saved == old(Me().saved)
    {
      var state := Settle(Me().saved);
      found := FindByThumbprint(listing, cur, None);
      life := WriteState(Schedule(state, found, cur, now), SaveRecovered(found, now));
    }

    /** _adopt_standby: swap the proven standby in while the old pair is failing. */
    method AdoptStandby(cur: Gen, now: int, listing: seq<KeyId>) returns (life: Life, found: Option<KeyId>)
      requires Valid() && Me().mem.Busy? && Me().mem.run.job == Recovery && Me().mem.run.cur == Some(cur)
      requires Me().mem.run.added.None? && MaySwap(Me(), Me().mem.run, 1)
      modifies this
      ensures Valid() && Since(old(world)) && Me().mem.Idle?
      ensures !host.mortal ==> life.Alive?
      ensures life.Alive? ==>
                && Me().disk == Swapped(old(Me().disk), Rec)
                && Me().saved == Schedule(Settle(old(Me().saved)), found, cur, now)
                && FoundIn(old(world), world, listing, cur, None, found)
    {
      found := None;
      :- SwapIn(Rec);
      ghost var mid := world.keys;
      found :- ScheduleOldKey(cur, now, listing);
      assert FirstFit(mid, listing, cur, None, found);
      life := Close();
      return Alive, found;
    }

    /** Load the staged standby, mint with it, and settle its proof. */
    method ProveStandby(key: Gen, cur: Gen, p: Pass) returns (life: Life, end: PassEnd)
      requires Valid() && Me().mem.Busy? && Me().mem.run == Loaded(Recovery, key, cur).(liveFault := true)
      requires Me().saved.recovery.Some? && Me().disk.recKey.Holds? && Me().disk.recCert.Holds?
      modifies this
      ensures Valid() && Since(old(world)) && Me().disk == old(Me().disk) && Me().saved == old(Me().saved)
      ensures !host.mortal ==> life.Alive?
      ensures life.Alive? ==> Me().mem.Busy? && Me().mem.run.added.None? && Me().mem.run.cur == Some(cur)
      ensures life.Alive? ==> Me().mem.run.job == Recovery && Me().mem.run.swap == 0
      ensures life.Alive? ==>
                end == if !p.standbyMints then StandbyWaiting
                       else if p.recipient && !p.proofAccepted then ProofWaiting
                       else Recovered(None)
      ensures life.Alive? && end.Recovered? ==> MaySwap(Me(), Me().mem.run, 1)
      ensures life.Died? ==> Me().mem.Idle?
    {
      end := StandbyWaiting;
      :- Do(LoadStandby);
      if !p.standbyMints {
        return Alive, StandbyWaiting;
      }
      :- Do(MintStaged);
      var sent :- ProveSend(p.recipient, p.proofAccepted);
      return Alive, if sent then Recovered(None) else ProofWaiting;
    }

    method ForgetStandby() returns (life: Life)
      requires Valid() && Me().mem.Busy? && Me().mem.run.job == Recovery && Me().mem.run.liveFault
      requires Me().saved.recovery.Some? && Me().mem.run.staged.None?
      requires Me().disk.recKey.Absent? || Me().disk.recCert.Absent?
      modifies this
      ensures Valid() && Since(old(world)) && Me().disk == old(Me().disk)
      ensures !host.mortal ==> life.Alive?
      ensures life.Alive? ==> Me().saved == old(Me().saved).(recovery := None) && Me().mem == old(Me().mem)
      ensures life.Died? ==> Me().mem.Idle?
    {
      var state := Me().saved;
      life := WriteState(state.(recovery := None), SaveMissing);
    }

    /** _advance_pending_standby */
    method AdvanceStandby(key: Gen, cur: Gen, p: Pass) returns (life: Life, end: PassEnd)
      requires Valid() && Me().mem.Busy? && Me().mem.run == Loaded(Recovery, key, cur).(liveFault := true)
      requires Me().saved.recovery.Some?
      modifies this
      ensures Valid() && Since(old(world)) && Me().mem.Idle?
      ensures !host.mortal ==> life.Alive?
      ensures life.Alive? ==> PassResult(old(Me().disk), old(Me().saved), Me().disk, Me().saved, cur, p, end)
      ensures life.Alive? ==>
                || end.StandbyMissing? || end.StandbyUnreadable? || end.StandbyWaiting? || end.ProofWaiting?
                || end.Recovered?
      ensures life.Alive? && end.Recovered? ==> FoundIn(old(world), world, p.listing, cur, None, end.found)
    {
      end := StandbyMissing;
      if Me().disk.recKey.Absent? || Me().disk.recCert.Absent? {
        :- ForgetStandby();
        life := Close();
        return Alive, StandbyMissing;
      }
      if Me().disk.recKey.Partial? || Me().disk.recCert.Partial? {
        life := Close();
        return Alive, StandbyUnreadable;
      }
      end :- ProveStandby(key, cur, p);
      if end.Recovered? {
        ghost var mid := world;
        var found :- AdoptStandby(cur, p.checkedAt, p.listing);
        FoundSince(old(world), mid, world, p.listing, cur, None, found);
        return Alive, Recovered(found);
      }
      life := Close();
      return Alive, end;
    }

    /** A certificate fault without a standby: count it, and generate one only once
        both gates are open. */
    method CountAndGenerate(key: Gen, cur: Gen, p: Pass) returns (life: Life, end: PassEnd)
      requires Valid() && Me().mem.Busy? && Me().mem.run == Loaded(Recovery, key, cur).(liveFault := true)
      requires Me().saved.recovery.None? && 0 < p.countedAt
      modifies this
      ensures Valid() && Since(old(world)) && Me().mem.Idle?
      ensures !host.mortal ==> life.Alive?
      ensures Me().disk == old(Me().disk).(recKey := Me().disk.recKey, recCert := Me().disk.recCert)
      ensures life.Alive? ==> end.Counted? || end.Generated?
      ensures life.Alive? ==> (end.Generated? <==> GateOpen(CountFault(old(Me().saved), p.countedAt), p))
      ensures life.Alive? && end.Counted? ==>
                Me().disk == old(Me().disk) && Me().saved == CountFault(old(Me().saved), p.countedAt)
      ensures life.Alive? && end.Generated? ==>
                && |old(world).certs| <= end.g && Me().disk.recKey == Me().disk.recCert == Holds(end.g)
                && Me().saved == CountFault(old(Me().saved), p.countedAt).(recovery := Some(end.g))
    {
      end := Counted;
      :- CountLiveFault(p.countedAt);
      if GateOpen(Me().saved, p) {
        var g :- GenerateStandby(key, cur, p);
        return Alive, Generated(g);
      }
      life := Close();
      return Alive, Counted;
    }

    /** The live pair minted: a standby in flight is thrown away. */
    method LivePairWorks(key: Gen, cur: Gen) returns (life: Life)
      requires Valid() && Me().mem.Busy? && Me().mem.run == Loaded(Recovery, key, cur)
      modifies this
      ensures Valid() && Since(old(world)) && Me().mem.Idle?
      ensures !host.mortal ==> life.Alive?
      ensures Me().disk == old(Me().disk).(recKey := Me().disk.recKey, recCert := Me().disk.recCert)
      ensures life.Alive? && old(Me().saved).recovery.Some? ==>
                && Me().saved == Settle(old(Me().saved)) && Me().disk.recKey.Absent? && Me().disk.recCert.Absent?
      ensures life.Alive? && old(Me().saved).recovery.None? ==>
                && Me().saved == ClearStreak(old(Me().saved)) && Me().disk == old(Me().disk)
    {
      life := Alive;
      :- Do(LiveMints);
      if Me().saved.recovery.Some? {
        :- DiscardStandby();
      } else {
        :- ClearHealthy();
      }
      life := Close();
      return Alive;
    }

    /** The healthy shortcut: no standby in flight and a fresh token file. */
    method TakeShortcut() returns (life: Life)
      requires Valid() && Me().mem.Busy? && Me().mem.run == NEW_RUN.(job := Recovery)
      requires Me().saved.recovery.None?
      modifies this
      ensures Valid() && Since(old(world)) && Me().mem.Idle? && Me().disk == old(Me().disk)
      ensures !host.mortal ==> life.Alive?
      ensures life.Alive? ==> Me().saved == ClearStreak(old(Me().saved))
    {
      life := Alive;
      :- Do(TokenFresh);
      :- ClearHealthy();
      life := Close();
      return Alive;
    }

    /** The live pair failed with a definitive certificate fault. */
    method LivePairFails(key: Gen, cur: Gen, p: Pass) returns (life: Life, end: PassEnd)
      requires Valid() && Me().mem.Busy? && Me().mem.run == Loaded(Recovery, key, cur) && 0 < p.countedAt
      modifies this
      ensures Valid() && Since(old(world)) && Me().mem.Idle?
      ensures !host.mortal ==> life.Alive?
      ensures life.Alive? ==> PassResult(old(Me().disk), old(Me().saved), Me().disk, Me().saved, cur, p, end)
      ensures life.Alive? ==>
                !end.LiveWorks? && !end.NotCertificate? && !end.Shortcut? && !end.NoLivePair? && !end.Disabled?
      ensures life.Alive? ==> (old(Me().saved).recovery.None? <==> end.Counted? || end.Generated?)
      ensures life.Alive? && end.Generated? ==> |old(world).certs| <= end.g
      ensures life.Alive? && end.Recovered? ==> FoundIn(old(world), world, p.listing, cur, None, end.found)
    {
      end := Counted;
      :- Do(LiveFaults);
      if Me().saved.recovery.Some? {
        ghost var mid := world;
        end :- AdvanceStandby(key, cur, p);
        if end.Recovered? {
          FoundSince(old(world), mid, world, p.listing, cur, None, end.found);
        }
      } else {
        end :- CountAndGenerate(key, cur, p);
      }
      return Alive, end;
    }

    method TestLivePair(p: Pass) returns (life: Life, end: PassEnd)
      requires Valid() && Me().mem.Busy? && Me().mem.run == NEW_RUN.(job := Recovery) && 0 < p.countedAt
      requires Me().disk.liveKey.Holds? && Me().disk.liveCert.Holds?
      modifies this
      ensures Valid() && Since(old(world)) && Me().mem.Idle?
      ensures !host.mortal ==> life.Alive?
      ensures life.Alive? ==> PassResult(old(Me().disk), old(Me().saved), Me().disk, Me().saved,
                                         old(Me().disk).liveCert.gen, p, end)
      ensures life.Alive? ==> !end.Disabled? && !end.Shortcut? && !end.NoLivePair?
      ensures life.Alive? ==> (end.LiveWorks? <==> p.live.Minted?)
      ensures life.Alive? ==> (end.NotCertificate? <==> p.live.Failed? && !CertificateFault(p))
      ensures life.Alive? && end.Recovered? ==>
                FoundIn(old(world), world, p.listing, old(Me().disk).liveCert.gen, None, end.found)
      ensures life.Alive? ==>
                (end.Counted? || end.Generated? <==> CertificateFault(p) && old(Me().saved).recovery.None?)
      ensures life.Alive? && end.Generated? ==> |old(world).certs| <= end.g
    {
      end := LiveWorks;
      :- LoadLive();
      var key, cur := Me().disk.liveKey.gen, Me().disk.liveCert.gen;
      if p.live.Minted? {
        :- LivePairWorks(key, cur);
        return Alive, LiveWorks;
      }
      if !CertificateFault(p) {
        life := Close();
        return Alive, NotCertificate;
      }
      ghost var mid := world;
      end :- LivePairFails(key, cur, p);
      if end.Recovered? {
        FoundSince(old(world), mid, world, p.listing, cur, None, end.found);
      }
      return Alive, end;
    }

    /** run_recovery: one pass.  The live pair is always tested first. */
    method RunRecovery(p: Pass) returns (life: Life, end: PassEnd)
      requires Valid() && Me().mem.Idle? && 0 < p.countedAt
      modifies this
      ensures Valid() && Since(old(world)) && Me().mem.Idle?
      ensures !host.mortal ==> life.Alive?
      ensures life.Alive? && !end.Recovered? ==>
                Me().disk.liveKey == old(Me().disk).liveKey && Me().disk.liveCert == old(Me().disk).liveCert
      ensures life.Alive? && !end.Disabled? && !end.Shortcut? && !end.NoLivePair? ==>
                && old(Me().disk).liveCert.Holds?
                && PassResult(old(Me().disk), old(Me().saved), Me().disk, Me().saved,
                              old(Me().disk).liveCert.gen, p, end)
      ensures life.Alive? ==> (end.Disabled? <==> !p.enabled)
      ensures life.Alive? && end.Disabled? ==> Me().disk == old(Me().disk) && Me().saved == old(Me().saved)
      ensures life.Alive? ==> (end.Shortcut? <==> p.enabled && p.tokenFresh && old(Me().saved).recovery.None?)
      ensures life.Alive? && end.Shortcut? ==>
                Me().disk == old(Me().disk) && Me().saved == ClearStreak(old(Me().saved))
      ensures life.Alive? ==>
                (end.NoLivePair? <==>
                   && p.enabled && !(p.tokenFresh && old(Me().saved).recovery.None?)
                   && !(old(Me().disk).liveKey.Holds? && old(Me().disk).liveCert.Holds?))
      ensures life.Alive? && end.NoLivePair? ==> Me().disk == old(Me().disk) && Me().saved == old(Me().saved)
      ensures life.Alive? && !end.Disabled? && !end.Shortcut? && !end.NoLivePair? ==>
                && (end.LiveWorks? <==> p.live.Minted?)
                && (end.NotCertificate? <==> p.live.Failed? && !CertificateFault(p))
      ensures life.Alive? && !end.Disabled? && !end.Shortcut? && !end.NoLivePair? ==>
                (end.Counted? || end.Generated? <==> CertificateFault(p) && old(Me().saved).recovery.None?)
      ensures life.Alive? && !end.Disabled? && !end.Shortcut? && !end.NoLivePair? ==>
                InPlainTerms(old(Me().saved), old(Me().disk).liveCert.gen, p, end, Me().saved)
      ensures life.Alive? && end.Generated? ==> |old(world).certs| <= end.g
      ensures life.Alive? && end.Recovered? ==>
                && old(Me().disk).liveCert.Holds?
                && FoundIn(old(world), world, p.listing, old(Me().disk).liveCert.gen, None, end.found)
    {
      end := Disabled;
      if !p.enabled {
        Interfere();
        return Alive, Disabled;
      }
      Begin(Recovery);
      if Me().saved.recovery.None? && p.tokenFresh {
        :- TakeShortcut();
        return Alive, Shortcut;
      }
      if !Me().disk.liveKey.Holds? || !Me().disk.liveCert.Holds? {
        life := Close();
        return Alive, NoLivePair;
      }
      ghost var d, s, mid := Me().disk, Me().saved, world;
      end :- TestLivePair(p);
      PassInPlainTerms(d, s, Me().disk, Me().saved, d.liveCert.gen, p, end);
      if end.Recovered? {
        FoundSince(old(world), mid, world, p.listing, d.liveCert.gen, None, end.found);
      }
      return Alive, end;
    }
  }
}
