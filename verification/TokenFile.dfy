/** refresh-smtp-token.py: many minters and readers share one token file.

    A path is a name; what it names is a file (an inode, numbered in order of
    creation).  A rename moves the name and leaves the file; a reader keeps the
    file it opened.  Any interleaving of any number of processes is a sequence of
    steps, and a process may die or fail between any two of its own. */
module TokenFile {
  import opened Common

  type Pid = nat
  type Ino = nat
  type Reader = nat

  const OWNER_ONLY := 0x180  // 0600
  const GROUP_READ := 0x1A0  // 0640

  /** The owner may read and write, and nobody else anything; and then the group, and
      only the group, may read. */
  lemma ModesSay()
    ensures OWNER_ONLY / 64 == 6 && OWNER_ONLY % 64 == 0
    ensures GROUP_READ / 64 == 6 && GROUP_READ / 8 % 8 == 4 && GROUP_READ % 8 == 0
  {
  }

  datatype File = File(text: string, group: nat, mode: nat)

  /** What one write_token_file call was asked to publish. */
  datatype Job = Job(text: string, group: Option<nat>)

  datatype Stage = Begun | Writing | Synced | Chowned | Ready | Failing

  datatype Minter = Minter(job: Job, stage: Stage)

  datatype Publication = Publication(minter: Pid, job: Job)

  /** `staging[p]` is the file named `.<file>.tmp.<p>`; `past` recounts the renames. */
  datatype Fs = Fs(
    files: seq<File>,
    live: Option<Ino>,
    staging: map<Pid, Ino>,
    minters: map<Pid, Minter>,
    handles: map<Reader, Ino>,
    past: map<Ino, Publication>)

  datatype Act =
    | Begin(job: Job)
    | OpenStaging(group: nat)
    | WriteUpTo(k: nat)
    | Sync
    | Chown
    | Chmod
    | Rename
    | Fail      // an exception in any of the above
    | Unlink    // the handler removes the staging file
    | Leave     // the process dies, or the handler's unlink fails too

  datatype Step = By(p: Pid, act: Act) | OpenLive(r: Reader)

  predicate MayRename(m: Minter) {
    m.stage == Ready || (m.stage == Synced && m.job.group.None?)
  }

  predicate AtStage(fs: Fs, p: Pid, s: Stage) {
    p in fs.minters && fs.minters[p].stage == s
  }

  function Advance(fs: Fs, p: Pid, s: Stage): Fs
    requires p in fs.minters
  {
    fs.(minters := fs.minters[p := fs.minters[p].(stage := s)])
  }

  function SetFile(fs: Fs, i: Ino, f: File): Fs
    requires i < |fs.files|
  {
    fs.(files := fs.files[i := f])
  }

  /** The file under p's staging name. */
  predicate HasStaging(fs: Fs, p: Pid) {
    p in fs.staging && fs.staging[p] < |fs.files|
  }

  function Staged(fs: Fs, p: Pid): File
    requires HasStaging(fs, p)
  {
    fs.files[fs.staging[p]]
  }

  function Perform(fs: Fs, p: Pid, a: Act): Option<Fs> {
    match a
    case Begin(job) =>
      if p !in fs.minters then Some(fs.(minters := fs.minters[p := Minter(job, Begun)])) else None
    case OpenStaging(group) =>
      if !AtStage(fs, p, Begun) then None
      else if HasStaging(fs, p) then
        // O_TRUNC empties a leftover of an earlier process with this PID in place
        Some(Advance(SetFile(fs, fs.staging[p], Staged(fs, p).(text := "")), p, Writing))
      else
        Some(Advance(fs.(files := fs.files + [File("", group, OWNER_ONLY)],
                         staging := fs.staging[p := |fs.files|]), p, Writing))
    case WriteUpTo(k) =>
      if AtStage(fs, p, Writing) && HasStaging(fs, p) && |Staged(fs, p).text| <= k <= |fs.minters[p].job.text|
      then Some(SetFile(fs, fs.staging[p], Staged(fs, p).(text := fs.minters[p].job.text[..k])))
      else None
    case Sync =>
      if AtStage(fs, p, Writing) && HasStaging(fs, p) && |Staged(fs, p).text| == |fs.minters[p].job.text|
      then Some(Advance(fs, p, Synced))
      else None
    case Chown =>
      if AtStage(fs, p, Synced) && HasStaging(fs, p) && fs.minters[p].job.group.Some?
      then Some(Advance(SetFile(fs, fs.staging[p], Staged(fs, p).(group := fs.minters[p].job.group.value)), p, Chowned))
      else None
    case Chmod =>
      if AtStage(fs, p, Chowned) && HasStaging(fs, p)
      then Some(Advance(SetFile(fs, fs.staging[p], Staged(fs, p).(mode := GROUP_READ)), p, Ready))
      else None
    case Rename =>
      if p in fs.minters && MayRename(fs.minters[p]) && HasStaging(fs, p)
      then Some(fs.(live := Some(fs.staging[p]), staging := fs.staging - {p}, minters := fs.minters - {p},
                    past := fs.past[fs.staging[p] := Publication(p, fs.minters[p].job)]))
      else None
    case Fail => if p in fs.minters then Some(Advance(fs, p, Failing)) else None
    case Unlink =>
      if AtStage(fs, p, Failing) then Some(fs.(staging := fs.staging - {p}, minters := fs.minters - {p})) else None
    case Leave => if p in fs.minters then Some(fs.(minters := fs.minters - {p})) else None
  }

  function Next(fs: Fs, s: Step): Option<Fs> {
    match s
    case By(p, a) => Perform(fs, p, a)
    case OpenLive(r) => if fs.live.Some? then Some(fs.(handles := fs.handles[r := fs.live.value])) else None
  }

  function After(fs: Fs, trace: seq<Step>): Option<Fs> {
    if trace == [] then Some(fs)
    else
      var n := |trace| - 1;
      match After(fs, trace[..n])
      case None => None
      case Some(t) => Next(t, trace[n])
  }

  // ----------------------------------------------------------------- invariant

  /** A published file: the whole text, with its group and mode in place. */
  predicate Complete(f: File, job: Job) {
    f.text == job.text && (job.group.Some? ==> f.group == job.group.value && f.mode == GROUP_READ)
  }

  /** How far a minter's staging file has come. */
  predicate Progress(f: File, m: Minter) {
    match m.stage
    case Begun => true
    case Failing => true
    case Writing => f.text <= m.job.text
    case Synced => f.text == m.job.text
    case Chowned => f.text == m.job.text && m.job.group == Some(f.group)
    case Ready => Complete(f, m.job)
  }

  /** A file readers may hold: the first live file, or a published one. */
  predicate Shown(first: Option<Ino>, fs: Fs, i: Ino) {
    i < |fs.files| && (first == Some(i) || i in fs.past)
  }

  predicate StagedApart(staging: map<Pid, Ino>, p: Pid, q: Pid) {
    p in staging && q in staging && p != q ==> staging[p] != staging[q]
  }

  ghost predicate Sound(first: Option<Ino>, fs: Fs) {
    && (forall p | p in fs.staging :: fs.staging[p] < |fs.files| && !Shown(first, fs, fs.staging[p]))
    && (forall p: Pid, q: Pid :: StagedApart(fs.staging, p, q))
    && (fs.live.Some? ==> Shown(first, fs, fs.live.value))
    && (first.Some? ==> first.value < |fs.files|)
    && (forall r | r in fs.handles :: Shown(first, fs, fs.handles[r]))
    && (forall i | i in fs.past :: i < |fs.files| && Complete(fs.files[i], fs.past[i].job))
    && (forall p | p in fs.minters :: MinterOk(fs, p))
  }

  predicate MinterOk(fs: Fs, p: Pid)
    requires p in fs.minters
  {
    fs.minters[p].stage in {Begun, Failing} || (HasStaging(fs, p) && Progress(Staged(fs, p), fs.minters[p]))
  }

  /** Any live file, any leftover staging files; no minter yet. */
  ghost predicate Start(fs: Fs) {
    && fs.minters == map[] && fs.handles == map[] && fs.past == map[]
    && Sound(fs.live, fs)
  }

  /** p edits its own staging file, or nothing, and moves on. */
  lemma EditKeepsSound(first: Option<Ino>, fs: Fs, p: Pid, f: File, m: Minter, t: Fs)
    requires Sound(first, fs) && HasStaging(fs, p) && p in fs.minters
    requires t == SetFile(fs, fs.staging[p], f).(minters := fs.minters[p := m])
    requires Progress(f, m)
    ensures Sound(first, t)
  {
    forall i | i in t.past ensures i < |t.files| && Complete(t.files[i], t.past[i].job) {
      assert Shown(first, fs, i);
    }
    forall q | q in t.minters ensures MinterOk(t, q) {
      assert StagedApart(fs.staging, q, p);
      assert q != p ==> MinterOk(fs, q);
    }
  }

  lemma StageKeepsSound(first: Option<Ino>, fs: Fs, p: Pid, m: Minter, t: Fs)
    requires Sound(first, fs) && m.stage in {Begun, Failing}
    requires t == fs.(minters := fs.minters[p := m])
    ensures Sound(first, t)
  {
    forall q | q in t.minters ensures MinterOk(t, q) {
      assert q != p ==> MinterOk(fs, q);
    }
  }

  lemma CreateKeepsSound(first: Option<Ino>, fs: Fs, p: Pid, f: File, m: Minter, t: Fs)
    requires Sound(first, fs) && p !in fs.staging && Progress(f, m)
    requires t == fs.(files := fs.files + [f], staging := fs.staging[p := |fs.files|], minters := fs.minters[p := m])
    ensures Sound(first, t)
  {
    forall i: Ino | i < |fs.files| ensures Shown(first, t, i) <==> Shown(first, fs, i) { }
    forall q | q in fs.staging ensures t.staging[q] == fs.staging[q] != |fs.files| && !Shown(first, t, t.staging[q]) {
      assert !Shown(first, fs, fs.staging[q]);
    }
    forall q: Pid, r: Pid ensures StagedApart(t.staging, q, r) {
      assert StagedApart(fs.staging, q, r);
    }
    forall i | i in t.past ensures i < |t.files| && Complete(t.files[i], t.past[i].job) {
      assert t.files[i] == fs.files[i];
    }
    forall q | q in t.minters ensures MinterOk(t, q) {
      assert q != p ==> MinterOk(fs, q);
    }
  }

  lemma RenameKeepsSound(first: Option<Ino>, fs: Fs, p: Pid, t: Fs)
    requires Sound(first, fs) && HasStaging(fs, p) && p in fs.minters && Complete(Staged(fs, p), fs.minters[p].job)
    requires t == fs.(live := Some(fs.staging[p]), staging := fs.staging - {p}, minters := fs.minters - {p},
                      past := fs.past[fs.staging[p] := Publication(p, fs.minters[p].job)])
    ensures Sound(first, t)
  {
    forall q | q in t.minters ensures MinterOk(t, q) {
      assert MinterOk(fs, q);
    }
    forall q: Pid, r: Pid ensures StagedApart(t.staging, q, r) {
      assert StagedApart(fs.staging, q, r);
    }
    forall q | q in t.staging ensures !Shown(first, t, t.staging[q]) {
      assert StagedApart(fs.staging, q, p) && !Shown(first, fs, fs.staging[q]);
    }
    forall r | r in t.handles ensures Shown(first, t, t.handles[r]) {
      assert Shown(first, fs, fs.handles[r]);
    }
  }

  lemma DropKeepsSound(first: Option<Ino>, fs: Fs, p: Pid, t: Fs)
    requires Sound(first, fs)
    requires t == fs.(staging := fs.staging - {p}, minters := fs.minters - {p}) || t == fs.(minters := fs.minters - {p})
    ensures Sound(first, t)
  {
    forall q | q in t.staging ensures !Shown(first, t, t.staging[q]) {
      assert t.staging[q] == fs.staging[q];
    }
    forall q: Pid, r: Pid ensures StagedApart(t.staging, q, r) {
      assert StagedApart(fs.staging, q, r);
    }
    forall q | q in t.minters ensures MinterOk(t, q) {
      assert MinterOk(fs, q);
    }
  }

  /** Filling the staging file and setting its group and mode. */
  lemma FillKeepsSound(first: Option<Ino>, fs: Fs, p: Pid, a: Act, t: Fs)
    requires Sound(first, fs) && Next(fs, By(p, a)) == Some(t)
    requires a.WriteUpTo? || a.Sync? || a.Chown? || a.Chmod?
    ensures Sound(first, t)
  {
    assert MinterOk(fs, p);
    match a
    case WriteUpTo(k) =>
      EditKeepsSound(first, fs, p, Staged(fs, p).(text := fs.minters[p].job.text[..k]), fs.minters[p], t);
    case Sync => EditKeepsSound(first, fs, p, Staged(fs, p), fs.minters[p].(stage := Synced), t);
    case Chown =>
      EditKeepsSound(first, fs, p, Staged(fs, p).(group := fs.minters[p].job.group.value),
                     fs.minters[p].(stage := Chowned), t);
    case Chmod =>
      EditKeepsSound(first, fs, p, Staged(fs, p).(mode := GROUP_READ), fs.minters[p].(stage := Ready), t);
  }

  lemma OpenKeepsSound(first: Option<Ino>, fs: Fs, p: Pid, group: nat, t: Fs)
    requires Sound(first, fs) && Next(fs, By(p, OpenStaging(group))) == Some(t)
    ensures Sound(first, t)
  {
    if HasStaging(fs, p) {
      EditKeepsSound(first, fs, p, Staged(fs, p).(text := ""), fs.minters[p].(stage := Writing), t);
    } else {
      CreateKeepsSound(first, fs, p, File("", group, OWNER_ONLY), fs.minters[p].(stage := Writing), t);
    }
  }

  lemma StepKeepsSound(first: Option<Ino>, fs: Fs, s: Step, t: Fs)
    requires Sound(first, fs) && Next(fs, s) == Some(t)
    ensures Sound(first, t)
  {
    match s
    case OpenLive(r) =>
    case By(p, a) =>
      if p in fs.minters {
        assert MinterOk(fs, p);
      }
      match a
      case Begin(job) => StageKeepsSound(first, fs, p, Minter(job, Begun), t);
      case OpenStaging(group) => OpenKeepsSound(first, fs, p, group, t);
      case Rename => RenameKeepsSound(first, fs, p, t);
      case Fail => StageKeepsSound(first, fs, p, fs.minters[p].(stage := Failing), t);
      case Unlink => DropKeepsSound(first, fs, p, t);
      case Leave => DropKeepsSound(first, fs, p, t);
      case _ => FillKeepsSound(first, fs, p, a, t);
  }

  lemma {:induction false} AlwaysSound(start: Fs, trace: seq<Step>, fs: Fs)
    requires Start(start) && After(start, trace) == Some(fs)
    ensures Sound(start.live, fs)
    decreases |trace|
  {
    if trace != [] {
      var n := |trace| - 1;
      var mid := After(start, trace[..n]).value;
      AlwaysSound(start, trace[..n], mid);
      StepKeepsSound(start.live, mid, trace[n], fs);
    }
  }

  /** A step writes to nobody's file but its own staging file, and only a rename
      publishes. */
  lemma StepWritesOwn(fs: Fs, s: Step, t: Fs)
    requires Next(fs, s) == Some(t)
    ensures |fs.files| <= |t.files|
    ensures forall i | 0 <= i < |fs.files| && !(s.By? && HasStaging(fs, s.p) && fs.staging[s.p] == i) ::
              t.files[i] == fs.files[i]
    ensures (t.live, t.past) == (fs.live, fs.past) ||
            (s.By? && s.act == Rename && s.p in fs.minters && HasStaging(fs, s.p) && t.live == Some(fs.staging[s.p])
             && t.past == fs.past[fs.staging[s.p] := Publication(s.p, fs.minters[s.p].job)])
    ensures forall q | q in t.minters :: (q in fs.minters && t.minters[q].job == fs.minters[q].job) ||
                                         s == By(q, Begin(t.minters[q].job))
  {
    if s.By? {
      match s.act
      case Rename =>
      case OpenStaging(_) =>
      case Begin(_) =>
      case _ => assert t.live == fs.live && t.past == fs.past;
    }
  }

  /** A file that was ever shown never changes again, whoever does what. */
  lemma ShownNeverChanges(first: Option<Ino>, fs: Fs, s: Step, t: Fs, i: Ino)
    requires Sound(first, fs) && Next(fs, s) == Some(t) && Shown(first, fs, i)
    ensures Shown(first, t, i) && t.files[i] == fs.files[i]
    ensures i in fs.past ==> i in t.past && t.past[i] == fs.past[i]
  {
    StepWritesOwn(fs, s, t);
  }

  /** A step of p leaves every other process's staging file, name and progress alone. */
  lemma OthersUntouched(first: Option<Ino>, fs: Fs, p: Pid, a: Act, t: Fs, q: Pid)
    requires Sound(first, fs) && Next(fs, By(p, a)) == Some(t) && q != p
    ensures q in t.staging <==> q in fs.staging
    ensures q in fs.staging ==> t.staging[q] == fs.staging[q] && Staged(t, q) == Staged(fs, q)
    ensures q in t.minters <==> q in fs.minters
    ensures q in fs.minters ==> t.minters[q] == fs.minters[q]
  {
    assert StagedApart(fs.staging, p, q);
  }

  // -------------------------------------------------------------- main results

  /** Every file a reader can hold, at every moment of every interleaving, is the
      initial file untouched or exactly what one minter set out to publish, with
      its group and mode; and what it reads now it reads for good. */
  lemma {:induction false} ReadersSeeWholeFiles(start: Fs, trace: seq<Step>, fs: Fs, r: Reader)
    requires Start(start) && After(start, trace) == Some(fs) && r in fs.handles
    ensures fs.handles[r] < |fs.files|
    ensures var i := fs.handles[r];
            (start.live == Some(i) && i < |start.files| && fs.files[i] == start.files[i]) ||
            (exists k, p, job :: Begins(trace, k, p, job) && Complete(fs.files[i], job))
  {
    AlwaysSound(start, trace, fs);
    var i := fs.handles[r];
    if start.live == Some(i) {
      FirstFileStays(start, trace, fs);
    } else {
      var k := PastIsBegun(start, trace, fs, i);
      assert Begins(trace, k, fs.past[i].minter, fs.past[i].job);
    }
  }

  predicate Begins(trace: seq<Step>, k: nat, p: Pid, job: Job) {
    k < |trace| && trace[k] == By(p, Begin(job))
  }

  lemma {:induction false} FirstFileStays(start: Fs, trace: seq<Step>, fs: Fs)
    requires Start(start) && After(start, trace) == Some(fs) && start.live.Some?
    ensures start.live.value < |start.files| && start.live.value < |fs.files|
    ensures fs.files[start.live.value] == start.files[start.live.value]
    decreases |trace|
  {
    if trace != [] {
      var n := |trace| - 1;
      var mid := After(start, trace[..n]).value;
      FirstFileStays(start, trace[..n], mid);
      AlwaysSound(start, trace[..n], mid);
      ShownNeverChanges(start.live, mid, trace[n], fs, start.live.value);
    }
  }

  /** What is being minted or was published had been asked for. */
  lemma {:induction false} MintersBegan(start: Fs, trace: seq<Step>, fs: Fs, p: Pid) returns (k: nat)
    requires Start(start) && After(start, trace) == Some(fs) && p in fs.minters
    ensures Begins(trace, k, p, fs.minters[p].job)
    decreases |trace|
  {
    var n := |trace| - 1;
    var mid := After(start, trace[..n]).value;
    StepWritesOwn(mid, trace[n], fs);
    if p in mid.minters && mid.minters[p].job == fs.minters[p].job {
      k := MintersBegan(start, trace[..n], mid, p);
    } else {
      k := n;
    }
  }

  lemma {:induction false} PastIsBegun(start: Fs, trace: seq<Step>, fs: Fs, i: Ino) returns (k: nat)
    requires Start(start) && After(start, trace) == Some(fs) && i in fs.past
    ensures Begins(trace, k, fs.past[i].minter, fs.past[i].job)
    decreases |trace|
  {
    var n := |trace| - 1;
    var mid := After(start, trace[..n]).value;
    StepWritesOwn(mid, trace[n], fs);
    if i in mid.past && mid.past[i] == fs.past[i] {
      k := PastIsBegun(start, trace[..n], mid, i);
    } else {
      k := MintersBegan(start, trace[..n], mid, fs.past[i].minter);
    }
  }

  /** Without a rename the live file is untouched: a minter that fails or dies first
      changes nothing a reader can see. */
  lemma {:induction false} NoRenameNoChange(first: Option<Ino>, fs: Fs, trace: seq<Step>, t: Fs)
    requires Sound(first, fs) && After(fs, trace) == Some(t)
    requires forall k | 0 <= k < |trace| && trace[k].By? :: trace[k].act != Rename
    ensures Sound(first, t) && t.live == fs.live && t.past == fs.past
    ensures fs.live.Some? ==> t.files[fs.live.value] == fs.files[fs.live.value]
    decreases |trace|
  {
    if trace != [] {
      var n := |trace| - 1;
      var mid := After(fs, trace[..n]).value;
      NoRenameNoChange(first, fs, trace[..n], mid);
      StepKeepsSound(first, mid, trace[n], t);
      StepWritesOwn(mid, trace[n], t);
      if fs.live.Some? {
        ShownNeverChanges(first, mid, trace[n], t, fs.live.value);
      }
    }
  }

  lemma GoesLive(first: Option<Ino>, fs: Fs, p: Pid, mid: Fs)
    requires Sound(first, fs) && Next(fs, By(p, Rename)) == Some(mid)
    ensures p in fs.minters && mid.live.Some? && mid.live.value < |mid.files|
    ensures Complete(mid.files[mid.live.value], fs.minters[p].job)
  {
    assert MinterOk(fs, p);
  }

  /** Whoever opens the token file after a minter's rename, and before the next one,
      gets that minter's whole payload. */
  lemma NextReaderGetsIt(start: Fs, trace: seq<Step>, fs: Fs, p: Pid, mid: Fs, rest: seq<Step>, u: Fs, r: Reader, v: Fs)
    requires Start(start) && After(start, trace) == Some(fs) && Next(fs, By(p, Rename)) == Some(mid)
    requires After(mid, rest) == Some(u) && forall k | 0 <= k < |rest| && rest[k].By? :: rest[k].act != Rename
    requires Next(u, OpenLive(r)) == Some(v)
    ensures p in fs.minters && r in v.handles && v.handles[r] < |v.files|
    ensures Complete(v.files[v.handles[r]], fs.minters[p].job)
  {
    AlwaysSound(start, trace, fs);
    StepKeepsSound(start.live, fs, By(p, Rename), mid);
    GoesLive(start.live, fs, p, mid);
    NoRenameNoChange(start.live, mid, rest, u);
  }

  // --------------------------------------------------------- one minter's program

  /** Between these, only other processes acted: `me` kept its staging file and its
      progress, no publication was undone, and none of the new ones is `me`'s. */
  ghost predicate OthersOnly(me: Pid, f: Fs, g: Fs) {
    && (me in f.staging <==> me in g.staging)
    && (HasStaging(f, me) ==> HasStaging(g, me) && g.staging[me] == f.staging[me] && Staged(g, me) == Staged(f, me))
    && (me in f.minters <==> me in g.minters)
    && (me in f.minters ==> g.minters[me] == f.minters[me])
    && (forall i | i in f.past :: i in g.past && g.past[i] == f.past[i])
    && (forall i | i in g.past && i !in f.past :: g.past[i].minter != me)
  }

  lemma OthersAdd(first: Option<Ino>, me: Pid, f: Fs, g: Fs, s: Step, h: Fs)
    requires OthersOnly(me, f, g) && Sound(first, g) && Next(g, s) == Some(h)
    requires s.By? ==> s.p != me
    ensures OthersOnly(me, f, h)
  {
    StepWritesOwn(g, s, h);
    if s.By? {
      OthersUntouched(first, g, s.p, s.act, h, me);
    }
  }

  predicate Holding(fs: Fs, me: Pid, m: Minter) {
    me in fs.minters && fs.minters[me] == m
  }

  predicate HoldsText(fs: Fs, me: Pid, text: string) {
    HasStaging(fs, me) && Staged(fs, me).text == text
  }

  /** `me` published the job since f, in a file that was not shown before. */
  ghost predicate PublishedSince(me: Pid, job: Job, f: Fs, g: Fs) {
    exists i | i in g.past && i < |g.files| ::
      i !in f.past && g.past[i] == Publication(me, job) && Complete(g.files[i], job)
  }

  /** No file `me` wrote has been shown since f. */
  ghost predicate NothingPublished(me: Pid, f: Fs, g: Fs) {
    && (forall i | i in f.past :: i in g.past && g.past[i] == f.past[i])
    && (forall i | i in g.past && i !in f.past :: g.past[i].minter != me)
  }

  lemma NothingAdds(me: Pid, f: Fs, g: Fs, h: Fs)
    requires NothingPublished(me, f, g) && NothingPublished(me, g, h)
    ensures NothingPublished(me, f, h)
  {
  }

  lemma PublishedAdds(me: Pid, job: Job, f: Fs, g: Fs, h: Fs)
    requires NothingPublished(me, f, g)
    ensures PublishedSince(me, job, g, h) ==> PublishedSince(me, job, f, h)
    ensures NothingPublished(me, g, h) ==> NothingPublished(me, f, h)
  {
  }

  /** Which of its system calls the process does not live to see, which of them raise,
      and whether there may be any of either. */
  datatype Fate = Fate(kills: nat -> bool, fails: nat -> bool, ghost smooth: bool)

  type Host = h: Fate | h.smooth ==> forall n: nat :: !h.kills(n) && !h.fails(n)
    witness Fate(n => false, n => false, true)

  class Writer {
    const me: Pid
    const host: Host
    const group: nat  // what the process creates files with
    ghost const first: Option<Ino>
    var fs: Fs
    var calls: nat

    ghost predicate Valid()
      reads this
    {
      Sound(first, fs)
    }

    constructor (me: Pid, host: Host, group: nat, fs: Fs)
      requires Start(fs)
      ensures Valid() && this.me == me && this.host == host && this.group == group && this.fs == fs
    {
      this.me, this.host, this.group, this.fs, this.first, this.calls := me, host, group, fs, fs.live, 0;
    }

    /** Any number of steps of readers and other minters. */
    method Interfere()
      requires Valid()
      modifies this
      ensures Valid() && OthersOnly(me, old(fs), fs)
    {
      var steps: nat := *;
      while steps > 0
        invariant Valid() && OthersOnly(me, old(fs), fs)
      {
        var opens: bool, r: Reader, p: Pid, a: Act := *, *, *, *;
        var s := if opens then OpenLive(r) else By(p, a);
        if opens || p != me {
          var t := Next(fs, s);
          if t.Some? {
            StepKeepsSound(first, fs, s, t.value);
            OthersAdd(first, me, old(fs), fs, s, t.value);
            fs := t.value;
          }
        }
        steps := steps - 1;
      }
    }

    /** One system call: it works, or it raises, or the process dies instead. */
    method Call(a: Act) returns (life: Life, ok: bool)
      requires Valid() && me in fs.minters && Perform(fs, me, a).Some?
      modifies this
      ensures Valid()
      ensures host.smooth ==> life.Alive? && ok
      ensures life.Died? ==> OthersOnly(me, Perform(old(fs), me, Leave).value, fs)
      ensures life.Alive? ==>
                OthersOnly(me, if ok then Perform(old(fs), me, a).value else Perform(old(fs), me, Fail).value, fs)
    {
      var dies := host.kills(calls);
      ok := !host.fails(calls);
      calls := calls + 1;
      var act := if dies then Leave else if ok then a else Fail;
      var t := Perform(fs, me, act).value;
      StepKeepsSound(first, fs, By(me, act), t);
      fs := t;
      Interfere();
      return if dies then Died else Alive, ok;
    }

    /** open: a new staging file, or the leftover of an earlier process, emptied. */
    method OpenFile(ghost job: Job) returns (life: Life, ok: bool)
      requires Valid() && Holding(fs, me, Minter(job, Begun))
      modifies this
      ensures Valid() && NothingPublished(me, old(fs), fs)
      ensures host.smooth ==> life.Alive? && ok
      ensures life.Alive? && ok ==> Holding(fs, me, Minter(job, Writing)) && HoldsText(fs, me, "")
      ensures life.Alive? && !ok ==> AtStage(fs, me, Failing)
      ensures life.Died? ==> me !in fs.minters
    {
      life, ok := Call(OpenStaging(group));
    }

    /** write: one more piece of the text reaches the file. */
    method WriteSome(ghost job: Job, k: nat) returns (life: Life, ok: bool)
      requires Valid() && Holding(fs, me, Minter(job, Writing)) && k <= |job.text|
      requires HasStaging(fs, me) && |Staged(fs, me).text| <= k
      modifies this
      ensures Valid() && NothingPublished(me, old(fs), fs)
      ensures host.smooth ==> life.Alive? && ok
      ensures life.Alive? && ok ==> Holding(fs, me, Minter(job, Writing)) && HoldsText(fs, me, job.text[..k])
      ensures life.Alive? && !ok ==> AtStage(fs, me, Failing)
      ensures life.Died? ==> me !in fs.minters
    {
      life, ok := Call(WriteUpTo(k));
    }

    /** flush and fsync. */
    method SyncFile(ghost job: Job) returns (life: Life, ok: bool)
      requires Valid() && Holding(fs, me, Minter(job, Writing)) && HoldsText(fs, me, job.text)
      modifies this
      ensures Valid() && NothingPublished(me, old(fs), fs)
      ensures host.smooth ==> life.Alive? && ok
      ensures life.Alive? && ok ==> Holding(fs, me, Minter(job, Synced)) && HasStaging(fs, me)
      ensures life.Alive? && !ok ==> AtStage(fs, me, Failing)
      ensures life.Died? ==> me !in fs.minters
    {
      life, ok := Call(Sync);
    }

    /** chown. */
    method SetOwner(ghost job: Job) returns (life: Life, ok: bool)
      requires Valid() && Holding(fs, me, Minter(job, Synced)) && HasStaging(fs, me) && job.group.Some?
      modifies this
      ensures Valid() && NothingPublished(me, old(fs), fs)
      ensures host.smooth ==> life.Alive? && ok
      ensures life.Alive? && ok ==> Holding(fs, me, Minter(job, Chowned)) && HasStaging(fs, me)
      ensures life.Alive? && !ok ==> AtStage(fs, me, Failing)
      ensures life.Died? ==> me !in fs.minters
    {
      life, ok := Call(Chown);
    }

    /** chmod. */
    method SetMode(ghost job: Job) returns (life: Life, ok: bool)
      requires Valid() && Holding(fs, me, Minter(job, Chowned)) && HasStaging(fs, me)
      modifies this
      ensures Valid() && NothingPublished(me, old(fs), fs)
      ensures host.smooth ==> life.Alive? && ok
      ensures life.Alive? && ok ==> Holding(fs, me, Minter(job, Ready)) && HasStaging(fs, me)
      ensures life.Alive? && !ok ==> AtStage(fs, me, Failing)
      ensures life.Died? ==> me !in fs.minters
    {
      life, ok := Call(Chmod);
    }

    /** os.replace: the staging file becomes the live one. */
    method MoveIn(ghost job: Job) returns (life: Life, ok: bool)
      requires Valid() && HasStaging(fs, me)
      requires Holding(fs, me, Minter(job, Ready)) || (Holding(fs, me, Minter(job, Synced)) && job.group.None?)
      modifies this
      ensures Valid()
      ensures host.smooth ==> life.Alive? && ok
      ensures life.Alive? && ok ==> me !in fs.minters && me !in fs.staging && PublishedSince(me, job, old(fs), fs)
      ensures !(life.Alive? && ok) ==> NothingPublished(me, old(fs), fs)
      ensures life.Alive? && !ok ==> AtStage(fs, me, Failing)
      ensures life.Died? ==> me !in fs.minters
    {
      ghost var mine := fs.staging[me];
      life, ok := Call(Rename);
      if life.Alive? && ok {
        assert mine in Perform(old(fs), me, Rename).value.past;
        assert fs.past[mine] == Publication(me, job) && mine !in old(fs).past;
      }
    }

    /** The body of the try block, up to its first exception. */
    method Publish(job: Job) returns (life: Life, ok: bool)
      requires Valid() && Holding(fs, me, Minter(job, Begun))
      modifies this
      ensures Valid()
      ensures host.smooth ==> life.Alive? && ok
      ensures life.Alive? && ok ==> me !in fs.minters && me !in fs.staging && PublishedSince(me, job, old(fs), fs)
      ensures !(life.Alive? && ok) ==> NothingPublished(me, old(fs), fs)
      ensures life.Alive? && !ok ==> AtStage(fs, me, Failing)
      ensures life.Died? ==> me !in fs.minters
    {
      life, ok := OpenFile(job);
      if life.Died? || !ok {
        return life, ok;
      }
      var written := 0;
      while written < |job.text|
        invariant Valid() && written <= |job.text|
        invariant Holding(fs, me, Minter(job, Writing)) && HoldsText(fs, me, job.text[..written])
        invariant NothingPublished(me, old(fs), fs)
      {
        var k :| written < k <= |job.text|;
        ghost var was := fs;
        life, ok := WriteSome(job, k);
        NothingAdds(me, old(fs), was, fs);
        if life.Died? || !ok {
          return life, ok;
        }
        written := k;
      }
      ghost var was := fs;
      life, ok := SyncFile(job);
      NothingAdds(me, old(fs), was, fs);
      if life.Died? || !ok {
        return life, ok;
      }
      if job.group.Some? {
        was := fs;
        life, ok := SetOwner(job);
        NothingAdds(me, old(fs), was, fs);
        if life.Died? || !ok {
          return life, ok;
        }
        was := fs;
        life, ok := SetMode(job);
        NothingAdds(me, old(fs), was, fs);
        if life.Died? || !ok {
          return life, ok;
        }
      }
      was := fs;
      life, ok := MoveIn(job);
      PublishedAdds(me, job, old(fs), was, fs);
    }

    /** The exception handler: remove this process's staging file, if that works, and
        touch nothing else; `mine` is the file system right after it. */
    method CleanUp() returns (cleaned: bool, ghost mine: Fs)
      requires Valid() && AtStage(fs, me, Failing)
      modifies this
      ensures Valid() && me !in fs.minters && NothingPublished(me, old(fs), fs)
      ensures cleaned <==> !host.fails(old(calls))
      ensures mine == old(fs).(minters := old(fs).minters - {me},
                               staging := if cleaned then old(fs).staging - {me} else old(fs).staging)
      ensures OthersOnly(me, mine, fs)
    {
      cleaned := !host.fails(calls);
      calls := calls + 1;
      var a := if cleaned then Unlink else Leave;
      var t := Perform(fs, me, a).value;
      StepKeepsSound(first, fs, By(me, a), t);
      fs := t;
      mine := t;
      Interfere();
    }

    /** write_token_file: publish the whole text, or fail and clean up. */
    method WriteTokenFile(job: Job) returns (life: Life, written: bool)
      requires Valid() && me !in fs.minters
      modifies this
      ensures Valid() && me !in fs.minters
      ensures host.smooth ==> life.Alive? && written
      ensures life.Alive? && written ==> me !in fs.staging && PublishedSince(me, job, old(fs), fs)
      ensures !(life.Alive? && written) ==> NothingPublished(me, old(fs), fs)
    {
      var begun := Perform(fs, me, Begin(job)).value;
      StepKeepsSound(first, fs, By(me, Begin(job)), begun);
      fs := begun;
      life, written := Publish(job);
      PublishedAdds(me, job, old(fs), begun, fs);
      if life.Alive? && !written {
        ghost var was := fs;
        var cleaned;
        ghost var mine;
        cleaned, mine := CleanUp();
        NothingAdds(me, old(fs), was, fs);
      }
    }

    /** main: keep a token that lasts long enough, else mint one and write it.
        `existing` is the expiry read from the live file, None when the file is
        missing or unreadable; `minted` is None when anything before the write fails. */
    method Refresh(minRemaining: int, existing: Option<int>, now: int, minted: Option<Job>)
      returns (life: Life, ok: bool, skipped: bool)
      requires Valid() && me !in fs.minters
      modifies this
      ensures Valid() && me !in fs.minters
      ensures skipped <==> minRemaining != 0 && existing.Some? && existing.value >= now + minRemaining
      ensures host.smooth && !skipped ==> life.Alive? && (ok <==> minted.Some?)
      ensures skipped ==> life.Alive? && ok && fs == old(fs)
      ensures life.Alive? && ok && !skipped ==>
                minted.Some? && PublishedSince(me, minted.value, old(fs), fs)
      ensures !(life.Alive? && ok) ==> NothingPublished(me, old(fs), fs)
    {
      life, ok, skipped := Alive, true, false;
      if minRemaining != 0 && existing.Some? {
        var remaining := existing.value - now;
        if remaining >= minRemaining {
          return Alive, true, true;
        }
      }
      if minted.None? {
        return Alive, false, false;
      }
      life, ok := WriteTokenFile(minted.value);
    }
  }
}
