/** Several relay instances sharing one app registration, as an event machine.

    A certificate is named by its generation: generations are dealt out by
    `World.certs` in order, so every generated pair has a globally fresh
    thumbprint and `certs[g]` is the instance that generated it.  A key
    credential is named by its position in `World.keys`, which never shrinks;
    `present` says which credentials the directory holds now.  Reads of the
    directory are adversarial, so no event below may rely on `present`.

    Every event is one effect of one process on its own files, on its own state
    file, or on the directory.  `Die` may come between any two of them. */
module RelayWorld {
  import opened Common

  type Inst = nat
  type Gen = nat
  type KeyId = nat

  /** One file: missing, being written, or the key or certificate of one generation. */
  datatype Slot = Absent | Partial | Holds(gen: Gen)

  /** The four file pairs: live, `.pem.new`, `.pem.recovery` and `.pem.previous`. */
  datatype Disk = Disk(
    liveKey: Slot, liveCert: Slot,
    newKey: Slot, newCert: Slot,
    recKey: Slot, recCert: Slot,
    prevKey: Slot, prevCert: Slot)

  datatype Addition = Addition(keyId: KeyId, thumb: Gen)
  datatype Removal = Removal(keyId: KeyId, thumb: Gen, rotatedAt: int)

  /** The JSON state file. */
  datatype Saved = Saved(
    addition: Option<Addition>,
    removal: Option<Removal>,
    recovery: Option<Gen>,
    streak: Option<nat>,
    since: Option<int>)

  datatype Job = Rotation | Recovery | Reset | HandRemoval

  /** What the running process holds in memory. */
  datatype Run = Run(
    job: Job,
    curKey: Option<Gen>,   // the loaded live private key
    cur: Option<Gen>,      // the loaded live certificate
    staged: Option<Gen>,   // the incoming certificate
    made: bool,           // the incoming certificate was generated by this run
    begun: bool,          // this run began writing a key file
    added: Option<KeyId>,  // the keyId addKey answered
    recorded: bool,        // ... and it is in the state file
    visible: bool,         // a 200 read showed it
    minted: bool,          // the incoming pair minted a token
    proven: bool,          // and its proof message was accepted
    liveOk: bool,          // recovery: the live pair minted in this pass
    liveFault: bool,       // recovery: it failed with a certificate fault
    counted: bool,         // recovery: that fault is in the state file
    moved: nat,            // reset: live files moved aside
    swap: nat)             // renames of the four-file swap done

  /** A process: its run, the keys it sent removeKey for, and those of them that
      a later 200 read did not show. */
  datatype Mem = Idle | Busy(run: Run, posted: set<KeyId>, gone: set<KeyId>)

  /** History kept for stating properties; no event is guarded by it. */
  datatype Ledger = Ledger(
    wasLive: set<Gen>,     // generations that have been the live certificate
    created: set<KeyId>,   // credentials this instance's addKey calls created
    gone: set<KeyId>,      // credentials it saw absent after removeKey
    lost: set<KeyId>,      // credentials it no longer knows about
    asked: seq<KeyId>,     // credentials it sent removeKey for, in order
    windowDeaths: nat,     // deaths between an addKey and the state write
    resets: nat,
    loose: bool,           // a reset began a key beside an old certificate, or a roll back put two generations back
    rolledBack: bool)      // an operator put the .previous pair back; both until the live certificate is replaced

  datatype Relay = Relay(named: bool, disk: Disk, saved: Saved, mem: Mem, ledger: Ledger)

  /** A key credential; `owner` is the instance stamp read from its displayName. */
  datatype Credential = Credential(thumb: Gen, owner: Option<Inst>)

  datatype World = World(
    certs: seq<Inst>,
    keys: seq<Credential>,
    present: set<KeyId>,
    relays: map<Inst, Relay>)

  datatype Area = New | Rec | Live

  datatype Reason =
    | Leftover
    | Abandoned
    | Retired(now: int, graceDays: int)
    | ByHand(yes: bool, override: bool)

  datatype Event =
    | Boot(job: Job) | Load | Die | Finish
    | MakeCert | MakeStandby(now: int, needStreak: int, needSeconds: int)
    | OpenKey(area: Area) | WriteKey(area: Area)
    | OpenCert(area: Area) | WriteCert(area: Area)
    | DropKey(area: Area) | DropCert(area: Area)
    | MoveLiveKey | MoveLiveCert
    | Swap(n: nat)
    | AddKey | AddKeyUnanswered | SeeKey | MintStaged | Prove(sent: bool, recipient: bool)
    | TokenFresh | LiveMints | LiveFaults | LoadStandby
    | PostRemove(key: KeyId, reason: Reason, hit: bool) | SeeGone(key: KeyId)
    | ClearLive | ClearGone | ClearRetired
    | SaveAddition | SaveRotated(found: Option<KeyId>, now: int)
    | SaveHealthy | SaveFault(now: int) | SaveDiscard | SaveMissing
    | SaveStandby | SaveRecovered(found: Option<KeyId>, now: int)
    | SaveReset
    | Upload(gen: Gen) | PortalDelete(key: KeyId) | RollBack

  datatype Step = Step(who: Inst, what: Event)

  // ---------------------------------------------------------------- ownership

  datatype Ownership = OwnLive | OwnRetiring | OwnSuperseded | OwnForeign | OwnUnmonitored

  /** classify_credential, with the thumbprint and the stamp already read. */
  function Classify(c: Credential, live: Option<Gen>, me: Inst, named: bool, retiring: bool): Ownership {
    if live == Some(c.thumb) then OwnLive
    else if retiring then OwnRetiring
    else if c.owner.Some? && named then
      if c.owner.value == me then OwnSuperseded else OwnForeign
    else OwnUnmonitored
  }

  /** Which classes a hand removal lets through. */
  predicate Permitted(kind: Ownership, yes: bool, override: bool) {
    match kind
    case OwnLive => false
    case OwnForeign => override
    case OwnUnmonitored => yes || override
    case _ => true
  }

  predicate IsRetiring(s: Saved, k: KeyId) {
    s.removal.Some? && s.removal.value.keyId == k
  }

  // ------------------------------------------------------------- slot helpers

  function KeySlot(d: Disk, a: Area): Slot {
    match a
    case New => d.newKey
    case Rec => d.recKey
    case Live => d.liveKey
  }

  function CertSlot(d: Disk, a: Area): Slot {
    match a
    case New => d.newCert
    case Rec => d.recCert
    case Live => d.liveCert
  }

  function SetKey(d: Disk, a: Area, s: Slot): Disk {
    match a
    case New => d.(newKey := s)
    case Rec => d.(recKey := s)
    case Live => d.(liveKey := s)
  }

  function SetCert(d: Disk, a: Area, s: Slot): Disk {
    match a
    case New => d.(newCert := s)
    case Rec => d.(recCert := s)
    case Live => d.(liveCert := s)
  }

  /** Where the incoming pair of a swap waits. */
  function Staging(j: Job): Area {
    if j == Recovery then Rec else New
  }

  function StagedSlot(run: Run): Slot {
    if run.staged.Some? then Holds(run.staged.value) else Absent
  }

  // -------------------------------------------------------------------- guards

  predicate MayWrite(r: Relay, run: Run, a: Area) {
    && run.staged.Some? && run.made && run.swap == 0
    && match a
       case New => run.job == Rotation && run.added.None?
       case Rec => run.job == Recovery && r.saved.recovery.None?
       case Live => run.job == Reset
  }

  predicate MayRemove(w: World, i: Inst, r: Relay, run: Run, k: KeyId, why: Reason) {
    && run.cur.Some? && run.swap == 0
    && match why
       case Leftover =>
         && run.job == Rotation && run.added.None?
         && r.saved.addition.Some? && r.saved.addition.value.keyId == k
         && r.saved.addition.value.thumb != run.cur.value
       case Abandoned =>
         run.added == Some(k) && run.recorded
       case Retired(now, grace) =>
         && run.job == Rotation && run.added.None?
         && IsRetiring(r.saved, k)
         && now - r.saved.removal.value.rotatedAt >= grace * 86400
       case ByHand(yes, override) =>
         && run.job == HandRemoval
         && k < |w.keys|
         && Permitted(Classify(w.keys[k], run.cur, i, r.named, IsRetiring(r.saved, k)), yes, override)
  }

  predicate MaySwap(r: Relay, run: Run, n: nat) {
    && 1 <= n <= 4 && run.swap == n - 1
    && run.proven && run.cur.Some? && run.staged.Some?
    && match run.job
       case Rotation =>
         && run.recorded && run.added.Some?
         && r.saved.addition == Some(Addition(run.added.value, run.staged.value))
         && (n <= 3 ==> r.disk.newKey == StagedSlot(run))
         && r.disk.newCert == StagedSlot(run)
       case Recovery =>
         && !run.made && run.liveFault && r.saved.recovery.Some?
         && (n <= 3 ==> r.disk.recKey.Holds?)
         && r.disk.recCert == StagedSlot(run)
       case _ => false
  }

  predicate MayAdd(r: Relay, run: Run) {
    && run.job == Rotation && run.cur.Some? && run.swap == 0
    && run.staged.Some? && run.made && run.added.None?
    && r.saved.addition.None?
    && r.disk.newKey == StagedSlot(run) && r.disk.newCert == StagedSlot(run)
  }

  predicate Asked(mem: Mem, k: KeyId) {
    mem.Busy? && k in mem.posted
  }

  predicate SeenGone(mem: Mem, k: KeyId) {
    mem.Busy? && k in mem.gone
  }

  /** A credential found by the thumbprint of the certificate being replaced. */
  predicate Matches(w: World, run: Run, found: Option<KeyId>) {
    run.cur.Some? &&
    (found.Some? ==> found.value < |w.keys| && w.keys[found.value].thumb == run.cur.value)
  }

  /** The swap is done and the state file does not say so yet. */
  predicate Unscheduled(s: Saved, run: Run) {
    run.swap == 4 &&
    match run.job
    case Rotation => s.addition.Some?
    case Recovery => s.recovery.Some?
    case _ => false
  }

  predicate Busily(r: Relay, e: Event)
  {
    e.Boot? || e.Upload? || e.PortalDelete? || e.RollBack? || r.mem.Busy?
  }

  predicate Enabled(w: World, i: Inst, e: Event) {
    i in w.relays &&
    var r := w.relays[i];
    Busily(r, e) &&
    match e
    case Boot(_) => r.mem.Idle?
    case Upload(g) => g < |w.certs|
    case PortalDelete(_) => true
    case RollBack => r.mem.Idle? && r.disk.prevKey.Holds? && r.disk.prevCert.Holds?
    case Die => true
    case _ => EnabledRun(w, i, r, r.mem.run, e)
  }

  predicate EnabledRun(w: World, i: Inst, r: Relay, run: Run, e: Event)
  {
    match e
    case Load =>
      && run.job != Reset && run.cur.None?
      && !run.liveOk && !run.liveFault && run.swap == 0
      && r.disk.liveKey.Holds? && r.disk.liveCert.Holds?
    case Finish => (run.added.None? || run.recorded) && (run.swap == 0 || (run.swap == 4 && !Unscheduled(r.saved, run)))
    case MakeCert =>
      && run.staged.None? && run.swap == 0
      && (|| (run.job == Rotation && run.cur.Some? && r.saved.addition.None?)
          || (run.job == Reset && run.moved != 1))
    case MakeStandby(now, needStreak, needSeconds) =>
      && run.job == Recovery && run.staged.None? && run.swap == 0
      && run.liveFault && run.counted && r.saved.recovery.None?
      && r.saved.streak.Some? && r.saved.since.Some?
      && needStreak <= r.saved.streak.value && needSeconds <= now - r.saved.since.value
    case OpenKey(a) =>
      && MayWrite(r, run, a) && !run.begun
      && (a.Live? ==> run.moved == 2 || r.disk.liveKey.Absent? || r.disk.liveCert.Absent?)
    case WriteKey(a) => MayWrite(r, run, a) && run.begun && KeySlot(r.disk, a).Partial?
    case OpenCert(a) =>
      MayWrite(r, run, a) && run.begun && KeySlot(r.disk, a) == StagedSlot(run)
    case WriteCert(a) =>
      && MayWrite(r, run, a) && run.begun
      && KeySlot(r.disk, a) == StagedSlot(run) && CertSlot(r.disk, a).Partial?
    case DropKey(a) => MayDrop(run, a)
    case DropCert(a) => MayDrop(run, a)
    case MoveLiveKey =>
      && run.job == Reset && run.moved == 0 && run.staged.None?
      && !r.disk.liveKey.Absent? && !r.disk.liveCert.Absent?
    case MoveLiveCert => run.job == Reset && run.moved == 1
    case Swap(n) => MaySwap(r, run, n)
    case AddKey => MayAdd(r, run)
    case AddKeyUnanswered => MayAdd(r, run)
    case SeeKey => run.added.Some? && run.recorded && run.swap == 0
    case MintStaged =>
      && run.swap == 0 && run.staged.Some?
      && (if run.job == Recovery then !run.made && run.liveFault else run.visible)
    case Prove(sent, recipient) =>
      run.minted && run.swap == 0 && (sent || (run.job == Recovery && !recipient))
    case TokenFresh => run.job == Recovery && run.cur.None? && r.saved.recovery.None?
    case LiveMints => run.job == Recovery && run.cur.Some? && !run.liveFault
    case LiveFaults => run.job == Recovery && run.cur.Some? && !run.liveOk
    case LoadStandby =>
      && run.job == Recovery && run.liveFault && run.staged.None?
      && r.saved.recovery.Some? && r.disk.recKey.Holds? && r.disk.recCert.Holds?
    case PostRemove(k, why, _) => MayRemove(w, i, r, run, k, why)
    case SeeGone(k) => Asked(r.mem, k) && run.swap == 0
    case ClearLive =>
      && run.job == Rotation && run.added.None? && run.staged.None? && run.cur.Some?
      && r.saved.addition.Some? && run.cur.value == r.saved.addition.value.thumb
    case ClearGone =>
      && run.job == Rotation && run.swap == 0 && (run.added.None? || run.recorded)
      && r.saved.addition.Some? && SeenGone(r.mem, r.saved.addition.value.keyId)
    case ClearRetired =>
      && run.job == Rotation && run.added.None? && run.staged.None?
      && r.saved.removal.Some? && SeenGone(r.mem, r.saved.removal.value.keyId)
    case SaveAddition => run.added.Some? && run.staged.Some? && !run.recorded
    case SaveRotated(found, _) =>
      && run.job == Rotation && Unscheduled(r.saved, run) && Matches(w, run, found)
      && found != run.added
    case SaveHealthy => run.job == Recovery && run.liveOk && r.saved.recovery.None?
    case SaveFault(now) =>
      run.job == Recovery && run.liveFault && !run.counted && r.saved.recovery.None? && 0 < now
    case SaveDiscard =>
      && run.job == Recovery && run.liveOk && r.saved.recovery.Some?
      && r.disk.recKey.Absent? && r.disk.recCert.Absent?
    case SaveMissing =>
      && run.job == Recovery && run.liveFault && r.saved.recovery.Some? && run.staged.None?
      && (r.disk.recKey.Absent? || r.disk.recCert.Absent?)
    case SaveStandby =>
      && run.job == Recovery && run.staged.Some? && run.made && r.saved.recovery.None?
      && r.disk.recKey == StagedSlot(run) && r.disk.recCert == StagedSlot(run)
    case SaveRecovered(found, _) =>
      run.job == Recovery && Unscheduled(r.saved, run) && Matches(w, run, found)
    case SaveReset =>
      && run.job == Reset && run.staged.Some? && run.begun
      && r.disk.liveKey == StagedSlot(run) && r.disk.liveCert == StagedSlot(run)
    case _ => true
  }

  predicate MayDrop(run: Run, a: Area) {
    && run.swap == 0
    && match a
       case New => run.job == Rotation && (run.added.None? || run.recorded)
       case Rec => run.job == Recovery && run.liveOk
       case Live => false
  }

  // ------------------------------------------------------------------- effects

  const NEW_RUN := Run(Rotation, None, None, None, false, false, None, false, false, false, false,
                       false, false, false, 0, 0)

  function SwapDisk(d: Disk, j: Job, n: nat): Disk {
    if n == 1 then d.(prevKey := d.liveKey, liveKey := Absent)
    else if n == 2 then d.(prevCert := d.liveCert, liveCert := Absent)
    else if n == 3 then
      SetKey(d.(liveKey := KeySlot(d, Staging(j))), Staging(j), Absent)
    else
      SetCert(d.(liveCert := CertSlot(d, Staging(j))), Staging(j), Absent)
  }

  function DiskAfter(d: Disk, mem: Mem, e: Event): Disk {
    match e
    case RollBack => d.(liveKey := d.prevKey, liveCert := d.prevCert, prevKey := Absent, prevCert := Absent)
    case OpenKey(a) => SetKey(d, a, Partial)
    case OpenCert(a) => SetCert(d, a, Partial)
    case DropKey(a) => SetKey(d, a, Absent)
    case DropCert(a) => SetCert(d, a, Absent)
    case MoveLiveKey => d.(prevKey := d.liveKey, liveKey := Absent)
    case MoveLiveCert => d.(prevCert := d.liveCert, liveCert := Absent)
    case WriteKey(a) => if mem.Busy? then SetKey(d, a, StagedSlot(mem.run)) else d
    case WriteCert(a) => if mem.Busy? then SetCert(d, a, StagedSlot(mem.run)) else d
    case Swap(n) => if mem.Busy? then SwapDisk(d, mem.run.job, n) else d
    case _ => d
  }

  /** A healthy pass without a standby: the two pops are joined by `or`, so the
      second is evaluated only when the first found nothing. */
  function ClearStreak(s: Saved): Saved {
    if s.streak.Some? then s.(streak := None) else s.(since := None)
  }

  /** A counted certificate fault; a stored zero start time counts as missing. */
  function CountFault(s: Saved, now: int): Saved {
    s.(streak := Some(s.streak.GetOr(0) + 1),
       since := if s.since.Some? && s.since.value != 0 then s.since else Some(now))
  }

  function Schedule(s: Saved, found: Option<KeyId>, cur: Gen, now: int): Saved {
    if found.Some? then s.(removal := Some(Removal(found.value, cur, now))) else s
  }

  function SavedAfter(s: Saved, mem: Mem, e: Event): Saved {
    match e
    case ClearLive => s.(addition := None)
    case ClearGone => s.(addition := None)
    case ClearRetired => s.(removal := None)
    case SaveAddition =>
      if mem.Busy? && mem.run.added.Some? && mem.run.staged.Some?
      then s.(addition := Some(Addition(mem.run.added.value, mem.run.staged.value))) else s
    case SaveRotated(found, now) =>
      if mem.Busy? && mem.run.cur.Some?
      then Schedule(s.(addition := None), found, mem.run.cur.value, now) else s
    case SaveHealthy => ClearStreak(s)
    case SaveFault(now) => CountFault(s, now)
    case SaveDiscard => s.(recovery := None, streak := None, since := None)
    case SaveMissing => s.(recovery := None)
    case SaveStandby => if mem.Busy? then s.(recovery := mem.run.staged) else s
    case SaveRecovered(found, now) =>
      if mem.Busy? && mem.run.cur.Some?
      then Schedule(s.(recovery := None, streak := None, since := None), found, mem.run.cur.value, now)
      else s
    case SaveReset => s.(addition := None, removal := None, recovery := None)
    case _ => s
  }

  function RunAfter(w: World, d: Disk, run: Run, e: Event): (next: Run)
    ensures next.job == run.job
    ensures !e.Load? ==> next.cur == run.cur && next.curKey == run.curKey
    ensures !e.Swap? ==> next.swap == run.swap
  {
    match e
    case Load =>
      if d.liveKey.Holds? && d.liveCert.Holds?
      then run.(curKey := Some(d.liveKey.gen), cur := Some(d.liveCert.gen)) else run
    case MakeCert => run.(staged := Some(|w.certs|), made := true)
    case MakeStandby(_, _, _) => run.(staged := Some(|w.certs|), made := true)
    case OpenKey(_) => run.(begun := true)
    case MoveLiveKey => run.(moved := 1)
    case MoveLiveCert => run.(moved := 2)
    case Swap(n) => run.(swap := n)
    case AddKey => run.(added := Some(|w.keys|))
    case SaveAddition => run.(recorded := true)
    case SeeKey => run.(visible := true)
    case MintStaged => run.(minted := true)
    case Prove(_, _) => run.(proven := true)
    case TokenFresh => run.(liveOk := true)
    case LiveMints => run.(liveOk := true)
    case LiveFaults => run.(liveFault := true)
    case SaveFault(_) => run.(counted := true)
    case LoadStandby => if d.recCert.Holds? then run.(staged := Some(d.recCert.gen)) else run
    case _ => run
  }

  function MemAfter(w: World, d: Disk, mem: Mem, e: Event): Mem {
    match e
    case Boot(job) => Busy(NEW_RUN.(job := job), {}, {})
    case Die => Idle
    case Finish => Idle
    case AddKeyUnanswered => Idle
    case PostRemove(k, _, _) => if mem.Busy? then mem.(posted := mem.posted + {k}) else mem
    case SeeGone(k) => if mem.Busy? then mem.(gone := mem.gone + {k}) else mem
    case _ => if mem.Busy? then mem.(run := RunAfter(w, d, mem.run, e)) else mem
  }

  /** An added key that the process has not written down yet. */
  function Unrecorded(mem: Mem): set<KeyId> {
    if mem.Busy? && mem.run.added.Some? && !mem.run.recorded then {mem.run.added.value} else {}
  }

  /** The recorded addition a reset forgets, if it is not already accounted for. */
  function Forgotten(r: Relay): set<KeyId> {
    if r.saved.addition.Some?
       && r.saved.addition.value.thumb !in r.ledger.wasLive
       && r.saved.addition.value.keyId !in r.ledger.gone
    then {r.saved.addition.value.keyId} else {}
  }

  function LedgerAfter(w: World, r: Relay, e: Event): (m: Ledger)
    ensures m.asked == r.ledger.asked + if e.PostRemove? then [e.key] else []
  {
    var l := r.ledger;
    match e
    case Die =>
      if Unrecorded(r.mem) != {}
      then l.(lost := l.lost + Unrecorded(r.mem), windowDeaths := l.windowDeaths + 1) else l
    case AddKey => l.(created := l.created + {|w.keys|})
    case AddKeyUnanswered =>
      l.(created := l.created + {|w.keys|}, lost := l.lost + {|w.keys|}, windowDeaths := l.windowDeaths + 1)
    case WriteCert(a) =>
      if a.Live? && r.mem.Busy? && r.mem.run.staged.Some?
      then l.(wasLive := l.wasLive + {r.mem.run.staged.value}, loose := false, rolledBack := false) else l
    case Swap(n) =>
      if n == 4 && r.mem.Busy? && r.mem.run.staged.Some?
      then l.(wasLive := l.wasLive + {r.mem.run.staged.value}, loose := false, rolledBack := false) else l
    case OpenKey(a) =>
      if a.Live? && !r.disk.liveCert.Absent? then l.(loose := true) else l
    case PostRemove(k, _, _) => l.(asked := l.asked + [k])
    case SeeGone(k) => l.(gone := l.gone + {k})
    case SaveReset => l.(lost := l.lost + Forgotten(r), resets := l.resets + 1)
    case RollBack => l.(rolledBack := true, loose := r.disk.prevKey != r.disk.prevCert)
    case _ => l
  }

  function RelayAfter(w: World, r: Relay, e: Event): Relay {
    Relay(r.named, DiskAfter(r.disk, r.mem, e), SavedAfter(r.saved, r.mem, e),
          MemAfter(w, r.disk, r.mem, e), LedgerAfter(w, r, e))
  }

  function CertsAfter(certs: seq<Inst>, i: Inst, e: Event): seq<Inst> {
    if e.MakeCert? || e.MakeStandby? then certs + [i] else certs
  }

  function KeysAfter(w: World, i: Inst, r: Relay, e: Event): seq<Credential> {
    match e
    case Upload(g) => w.keys + [Credential(g, None)]
    case AddKey =>
      if r.mem.Busy? && r.mem.run.staged.Some? then w.keys + [NewKey(i, r, r.mem.run.staged.value)] else w.keys
    case AddKeyUnanswered =>
      if r.mem.Busy? && r.mem.run.staged.Some? then w.keys + [NewKey(i, r, r.mem.run.staged.value)] else w.keys
    case _ => w.keys
  }

  /** The credential an addKey call creates, stamped with the instance's id. */
  function NewKey(i: Inst, r: Relay, g: Gen): Credential {
    Credential(g, if r.named then Some(i) else None)
  }

  function PresentAfter(w: World, e: Event): set<KeyId> {
    match e
    case Upload(_) => w.present + {|w.keys|}
    case AddKey => w.present + {|w.keys|}
    case AddKeyUnanswered => w.present + {|w.keys|}
    case PostRemove(k, _, hit) => if hit then w.present - {k} else w.present
    case PortalDelete(k) => w.present - {k}
    case _ => w.present
  }

  function Apply(w: World, i: Inst, e: Event): World
    requires i in w.relays
  {
    var r := w.relays[i];
    World(CertsAfter(w.certs, i, e), KeysAfter(w, i, r, e), PresentAfter(w, e),
          w.relays[i := RelayAfter(w, r, e)])
  }

  /** One step: the world after it, or None when it cannot happen. */
  function Next(w: World, i: Inst, e: Event): Option<World> {
    if Enabled(w, i, e) then Some(Apply(w, i, e)) else None
  }

  // ------------------------------------------------------------------ histories

  /** The world after a history, or None when some step of it could not happen. */
  function After(w: World, trace: seq<Step>): Option<World> {
    if trace == [] then Some(w)
    else
      var n := |trace| - 1;
      match After(w, trace[..n])
      case None => None
      case Some(v) => Next(v, trace[n].who, trace[n].what)
  }

  lemma AfterAppend(w: World, trace: seq<Step>, s: Step)
    ensures After(w, trace + [s]) ==
            match After(w, trace)
            case None => None
            case Some(v) => Next(v, s.who, s.what)
  {
    assert (trace + [s])[..|trace|] == trace;
  }
}
