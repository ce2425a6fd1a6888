/** What the alert engine has done, and what must hold of it: the vocabulary in
    which AlertStore's methods are specified. */
module AlertLog {
  import opened Common

  type Ref = nat

  datatype Status = Open | Recovered | Notification
  datatype Channel = Email | Webhook

  datatype Payload = Payload(event: string, ref: Ref, status: Status, count: nat)

  /** An outbox file is named by the time, the reference and the status. */
  datatype Name = Name(ms: int, ref: Ref, status: Status)

  datatype Incident = Incident(ref: Ref, count: nat)

  datatype ChannelState = ChannelState(pending: bool, attempts: nat, next: real)

  datatype Record = Record(payload: Payload, email: ChannelState, webhook: ChannelState) {
    function Get(c: Channel): ChannelState {
      if c == Email then email else webhook
    }

    function Set(c: Channel, s: ChannelState): Record {
      if c == Email then this.(email := s) else this.(webhook := s)
    }
  }

  datatype Entry =
    | OpenCommand(event: string)
    | Announced(name: Name, payload: Payload, email: bool, webhook: bool)
    | Tried(name: Name, channel: Channel, at: real, ok: bool)
    | Lost(payload: Payload, death: nat)                   // that death came before this notice was queued
    | Overwritten(event: string, ref: Ref, misread: nat)   // after that misread its incident was opened anew

  /** Deaths of the process, and files it could not read. */
  datatype Troubles = Troubles(deaths: nat, misreads: nat) {
    predicate Calm() {
      deaths == 0 && misreads == 0
    }

    function Death(): Troubles {
      this.(deaths := deaths + 1)
    }

    function Misread(): Troubles {
      this.(misreads := misreads + 1)
    }

    predicate Within(more: Troubles) {
      deaths <= more.deaths && misreads <= more.misreads
    }
  }

  // ------------------------------------------------------------------ one attempt

  function Exponent(k: nat): nat
    requires k >= 1
  {
    if k - 1 < 7 then k - 1 else 7
  }

  function Power2(n: nat): nat {
    if n == 0 then 1 else 2 * Power2(n - 1)
  }

  /** Seconds to wait after the k-th failure: 30 doubling, at most an hour. */
  function Delay(k: nat): int
    requires k >= 1
  {
    var d := 30 * Power2(Exponent(k));
    if d < 3600 then d else 3600
  }

  /** One channel after an attempt_outbox call at time `now`; `sent` is the answer
      of its deliver call, None when it was not called. */
  function ChannelAfter(s: ChannelState, now: real, sent: Option<bool>): ChannelState {
    match sent
    case None => s
    case Some(true) => s.(pending := false)
    case Some(false) => s.(attempts := s.attempts + 1, next := now + Delay(s.attempts + 1) as real)
  }

  predicate Due(s: ChannelState, now: real) {
    s.pending && now >= s.next
  }

  function RecordAfter(r: Record, now: real, email: Option<bool>, webhook: Option<bool>): Record {
    Record(r.payload, ChannelAfter(r.email, now, email), ChannelAfter(r.webhook, now, webhook))
  }

  /** The file is rewritten while a flag is set, and removed once none is. */
  function Keep(outbox: map<Name, Record>, n: Name, r: Record): map<Name, Record> {
    if r.email.pending || r.webhook.pending then outbox[n := r] else outbox - {n}
  }

  // -------------------------------------------------------- at-least-once delivery

  predicate Wants(e: Entry, c: Channel)
    requires e.Announced?
  {
    if c == Email then e.email else e.webhook
  }

  predicate Delivered(log: seq<Entry>, n: Name, c: Channel) {
    exists i | 0 <= i < |log| :: log[i].Tried? && log[i].name == n && log[i].channel == c && log[i].ok
  }

  predicate Waiting(outbox: map<Name, Record>, n: Name, c: Channel) {
    n in outbox && outbox[n].Get(c).pending
  }

  predicate Known(log: seq<Entry>, n: Name) {
    exists i | 0 <= i < |log| :: log[i].Announced? && log[i].name == n
  }

  predicate AnnouncedAs(log: seq<Entry>, n: Name, p: Payload) {
    exists i | 0 <= i < |log| :: log[i].Announced? && log[i].name == n && log[i].payload == p
  }

  /** No announcement is forgotten: each channel it was for has accepted it, or
      it is still on disk for that channel.  Only announcements are on disk, with
      the payload they were announced with, and only they are ever sent. */
  ghost predicate Conserved(outbox: map<Name, Record>, log: seq<Entry>) {
    && (forall i, c | 0 <= i < |log| && log[i].Announced? && Wants(log[i], c) ::
          Delivered(log, log[i].name, c) || Waiting(outbox, log[i].name, c))
    && (forall n | n in outbox :: AnnouncedAs(log, n, outbox[n].payload))
    && (forall i | 0 <= i < |log| && log[i].Tried? :: Known(log, log[i].name))
  }

  // -------------------------------------------------------------- one notice each

  predicate Notices(e: Entry, ref: Ref, status: Status) {
    e.Announced? && e.payload.ref == ref && e.payload.status == status
  }

  predicate IsTold(e: Entry) {
    e.Announced? || e.Lost?
  }

  /** The notice of this reference and status was queued, or the process died first. */
  predicate Tells(e: Entry, ref: Ref, status: Status) {
    IsTold(e) && e.payload.ref == ref && e.payload.status == status
  }

  ghost predicate Silent(log: seq<Entry>, ref: Ref, status: Status) {
    forall i | 0 <= i < |log| :: !Tells(log[i], ref, status)
  }

  /** Two notices told of differ in their reference or their status. */
  predicate ToldApart(log: seq<Entry>, i: int, j: int) {
    0 <= i < j < |log| && IsTold(log[i]) && IsTold(log[j]) ==>
      (log[i].payload.ref, log[i].payload.status) != (log[j].payload.ref, log[j].payload.status)
  }

  /** A notice told of has a reference that was dealt, and its file is named after it. */
  predicate WellTold(log: seq<Entry>, nextRef: Ref, i: int) {
    0 <= i < |log| ==>
      && (IsTold(log[i]) ==> log[i].payload.ref < nextRef)
      && (log[i].Announced? ==>
            log[i].name.ref == log[i].payload.ref && log[i].name.status == log[i].payload.status)
  }

  ghost predicate Unrecovered(incidents: map<string, Incident>, log: seq<Entry>, nextRef: Ref, e: string) {
    e in incidents ==> incidents[e].ref < nextRef && Silent(log, incidents[e].ref, Recovered)
  }

  predicate RefsApart(incidents: map<string, Incident>, e: string, f: string) {
    e in incidents && f in incidents && e != f ==> incidents[e].ref != incidents[f].ref
  }

  /** Each reference is told of at most once with the same status, queued or lost; an
      open incident has no recovery yet, and references are never dealt twice. */
  ghost predicate OneNotice(incidents: map<string, Incident>, log: seq<Entry>, nextRef: Ref) {
    && (forall i: int, j: int :: ToldApart(log, i, j))
    && (forall i: int :: WellTold(log, nextRef, i))
    && (forall e: string :: Unrecovered(incidents, log, nextRef, e))
    && (forall e: string, f: string :: RefsApart(incidents, e, f))
  }

  /** Entries that tell of nothing. */
  lemma MoreUntold(incidents: map<string, Incident>, log: seq<Entry>, nextRef: Ref, es: seq<Entry>)
    requires OneNotice(incidents, log, nextRef) && forall i | 0 <= i < |es| :: !IsTold(es[i])
    ensures OneNotice(incidents, log + es, nextRef)
  {
    forall i: int, j: int ensures ToldApart(log + es, i, j) {
      assert ToldApart(log, i, j);
    }
    forall i: int ensures WellTold(log + es, nextRef, i) {
      assert WellTold(log, nextRef, i);
    }
    forall e: string ensures Unrecovered(incidents, log + es, nextRef, e) {
      assert Unrecovered(incidents, log, nextRef, e);
    }
  }

  /** One notice told of, the first of its reference and status. */
  lemma OneMoreTold(incidents: map<string, Incident>, log: seq<Entry>, nextRef: Ref, t: Entry)
    requires OneNotice(incidents, log, nextRef)
    requires IsTold(t) && t.payload.ref < nextRef && Silent(log, t.payload.ref, t.payload.status)
    requires t.Announced? ==> t.name.ref == t.payload.ref && t.name.status == t.payload.status
    requires t.payload.status == Recovered ==> forall e | e in incidents :: incidents[e].ref != t.payload.ref
    ensures OneNotice(incidents, log + [t], nextRef)
  {
    forall i: int, j: int ensures ToldApart(log + [t], i, j) {
      assert ToldApart(log, i, j);
      if 0 <= i < |log| {
        assert !Tells(log[i], t.payload.ref, t.payload.status);
      }
    }
    forall i: int ensures WellTold(log + [t], nextRef, i) {
      assert WellTold(log, nextRef, i);
    }
    forall e: string ensures Unrecovered(incidents, log + [t], nextRef, e) {
      assert Unrecovered(incidents, log, nextRef, e);
    }
  }

  /** A reference not dealt yet was never told of. */
  lemma NotDealt(incidents: map<string, Incident>, log: seq<Entry>, nextRef: Ref, status: Status)
    requires OneNotice(incidents, log, nextRef)
    ensures Silent(log, nextRef, status)
    ensures forall e | e in incidents :: incidents[e].ref < nextRef
  {
    forall i | 0 <= i < |log| ensures !Tells(log[i], nextRef, status) {
      assert WellTold(log, nextRef, i);
    }
    forall e | e in incidents ensures incidents[e].ref < nextRef {
      assert Unrecovered(incidents, log, nextRef, e);
    }
  }

  lemma OneDealt(incidents: map<string, Incident>, log: seq<Entry>, nextRef: Ref, next: Ref)
    requires OneNotice(incidents, log, nextRef) && nextRef <= next
    ensures OneNotice(incidents, log, next)
  {
    forall i: int ensures WellTold(log, next, i) {
      assert WellTold(log, nextRef, i);
    }
    forall e: string ensures Unrecovered(incidents, log, next, e) {
      assert Unrecovered(incidents, log, nextRef, e);
    }
  }

  /** An incident written again under its reference, or under the next one. */
  lemma Refiled(incidents: map<string, Incident>, log: seq<Entry>, nextRef: Ref, event: string, incident: Incident)
    requires OneNotice(incidents, log, nextRef)
    requires incident.ref == nextRef || (event in incidents && incident.ref == incidents[event].ref)
    ensures OneNotice(incidents[event := incident], log, if incident.ref == nextRef then nextRef + 1 else nextRef)
  {
    var after := incidents[event := incident];
    var next := if incident.ref == nextRef then nextRef + 1 else nextRef;
    NotDealt(incidents, log, nextRef, Recovered);
    OneDealt(incidents, log, nextRef, next);
    forall e: string ensures Unrecovered(after, log, next, e) {
      assert Unrecovered(incidents, log, next, e) && Unrecovered(incidents, log, next, event);
    }
    forall e: string, f: string ensures RefsApart(after, e, f) {
      assert RefsApart(incidents, e, f) && RefsApart(incidents, event, f) && RefsApart(incidents, e, event);
    }
  }

  lemma Unfiled(incidents: map<string, Incident>, log: seq<Entry>, nextRef: Ref, event: string)
    requires OneNotice(incidents, log, nextRef)
    ensures OneNotice(incidents - {event}, log, nextRef)
    ensures event in incidents ==> Silent(log, incidents[event].ref, Recovered) && incidents[event].ref < nextRef
    ensures event in incidents ==> forall e | e in incidents - {event} :: incidents[e].ref != incidents[event].ref
  {
    assert Unrecovered(incidents, log, nextRef, event);
    forall e: string ensures Unrecovered(incidents - {event}, log, nextRef, e) {
      assert Unrecovered(incidents, log, nextRef, e);
    }
    forall e | e in incidents - {event} ensures event in incidents ==> incidents[e].ref != incidents[event].ref {
      assert RefsApart(incidents, e, event);
    }
    forall e: string, f: string ensures RefsApart(incidents - {event}, e, f) {
      assert RefsApart(incidents, e, f);
    }
  }

  // ------------------------------------------------------ notices that were due

  predicate Told(log: seq<Entry>, ref: Ref, status: Status) {
    exists i | 0 <= i < |log| :: Tells(log[i], ref, status)
  }

  predicate Dropped(log: seq<Entry>, ref: Ref) {
    exists i | 0 <= i < |log| :: log[i].Overwritten? && log[i].ref == ref
  }

  predicate StillOpen(incidents: map<string, Incident>, p: Payload) {
    p.event in incidents && incidents[p.event].ref == p.ref
  }

  /** Which death or misread an entry is blamed on. */
  predicate Blames(log: seq<Entry>, troubles: Troubles, i: int) {
    0 <= i < |log| ==>
      && (log[i].Lost? ==> log[i].death < troubles.deaths)
      && (log[i].Overwritten? ==> log[i].misread < troubles.misreads)
  }

  /** No two entries are blamed on the same one. */
  predicate BlamesApart(log: seq<Entry>, i: int, j: int) {
    0 <= i < j < |log| ==>
      && (log[i].Lost? && log[j].Lost? ==> log[i].death < log[j].death)
      && (log[i].Overwritten? && log[j].Overwritten? ==> log[i].misread < log[j].misread)
  }

  ghost predicate Blamed(log: seq<Entry>, troubles: Troubles) {
    (forall i: int :: Blames(log, troubles, i)) && (forall i: int, j: int :: BlamesApart(log, i, j))
  }

  predicate HadOpening(incidents: map<string, Incident>, log: seq<Entry>, event: string) {
    event in incidents ==> Told(log, incidents[event].ref, Open)
  }

  predicate IsOpening(e: Entry) {
    IsTold(e) && e.payload.status == Open
  }

  predicate OpeningSettled(incidents: map<string, Incident>, log: seq<Entry>, i: int) {
    0 <= i < |log| && IsOpening(log[i]) ==>
      var p := log[i].payload;
      StillOpen(incidents, p) || Told(log, p.ref, Recovered) || Dropped(log, p.ref)
  }

  /** Every incident on disk had its opening, and every opening is still open or had
      its recovery, or was overwritten when its file could not be read.  A notice is
      missing only where the process died just before queueing it, one per death. */
  ghost predicate Explained(incidents: map<string, Incident>, log: seq<Entry>, troubles: Troubles) {
    && (forall e: string :: HadOpening(incidents, log, e))
    && (forall i: int :: OpeningSettled(incidents, log, i))
    && Blamed(log, troubles)
  }

  lemma ToldLonger(log: seq<Entry>, es: seq<Entry>, ref: Ref, status: Status)
    ensures Told(log, ref, status) ==> Told(log + es, ref, status)
    ensures Dropped(log, ref) ==> Dropped(log + es, ref)
  {
    if Told(log, ref, status) {
      var i :| 0 <= i < |log| && Tells(log[i], ref, status);
      assert (log + es)[i] == log[i];
    }
    if Dropped(log, ref) {
      var i :| 0 <= i < |log| && log[i].Overwritten? && log[i].ref == ref;
      assert (log + es)[i] == log[i];
    }
  }

  lemma NothingBlamed(log: seq<Entry>, es: seq<Entry>, a: Troubles, b: Troubles)
    requires Blamed(log, a) && a.Within(b)
    requires forall i | 0 <= i < |es| :: !es[i].Lost? && !es[i].Overwritten?
    ensures Blamed(log + es, b)
  {
    forall i: int ensures Blames(log + es, b, i) {
      assert Blames(log, a, i);
    }
    forall i: int, j: int ensures BlamesApart(log + es, i, j) {
      assert BlamesApart(log, i, j);
    }
  }

  /** The next death, or the last misread if nothing is blamed on it yet. */
  lemma OneBlamed(log: seq<Entry>, e: Entry, a: Troubles, b: Troubles)
    requires Blamed(log, a) && a.Within(b)
    requires e.Lost? ==> e.death == a.deaths < b.deaths
    requires e.Overwritten? ==> e.misread == a.misreads < b.misreads
    ensures Blamed(log + [e], b)
  {
    forall i: int ensures Blames(log + [e], b, i) {
      assert Blames(log, a, i);
    }
    forall i: int, j: int ensures BlamesApart(log + [e], i, j) {
      assert BlamesApart(log, i, j) && Blames(log, a, i);
    }
  }

  /** How many notices were lost, and incidents overwritten. */
  function Losses(log: seq<Entry>): nat {
    if log == [] then 0 else Losses(log[..|log| - 1]) + if log[|log| - 1].Lost? then 1 else 0
  }

  function Overwrites(log: seq<Entry>): nat {
    if log == [] then 0 else Overwrites(log[..|log| - 1]) + if log[|log| - 1].Overwritten? then 1 else 0
  }

  /** At most one notice is lost per death, and one incident overwritten per misread. */
  lemma {:induction false} OnePerTrouble(log: seq<Entry>, troubles: Troubles)
    requires Blamed(log, troubles)
    ensures Losses(log) <= troubles.deaths && Overwrites(log) <= troubles.misreads
    decreases |log|
  {
    if log != [] {
      var n := |log| - 1;
      assert Blames(log, troubles, n);
      var less := Troubles(if log[n].Lost? then log[n].death else troubles.deaths,
                           if log[n].Overwritten? then log[n].misread else troubles.misreads);
      forall i: int ensures Blames(log[..n], less, i) {
        assert Blames(log, troubles, i) && BlamesApart(log, i, n);
      }
      forall i: int, j: int ensures BlamesApart(log[..n], i, j) {
        assert BlamesApart(log, i, j);
      }
      OnePerTrouble(log[..n], less);
    }
  }

  /** Without deaths every incident on disk was announced open, and with every file
      readable besides, every announced opening is still open or was announced
      recovered. */
  lemma NothingMissing(incidents: map<string, Incident>, log: seq<Entry>, troubles: Troubles)
    requires Explained(incidents, log, troubles) && troubles.deaths == 0
    ensures forall e | e in incidents :: exists i | 0 <= i < |log| :: Notices(log[i], incidents[e].ref, Open)
    ensures troubles.misreads == 0 ==>
              forall i | 0 <= i < |log| && log[i].Announced? && log[i].payload.status == Open ::
                StillOpen(incidents, log[i].payload)
                || exists j | 0 <= j < |log| :: Notices(log[j], log[i].payload.ref, Recovered)
  {
    forall i | 0 <= i < |log| ensures !log[i].Lost? && (troubles.misreads == 0 ==> !log[i].Overwritten?) {
      assert Blames(log, troubles, i);
    }
    forall e | e in incidents ensures exists i | 0 <= i < |log| :: Notices(log[i], incidents[e].ref, Open) {
      assert HadOpening(incidents, log, e);
      var i :| 0 <= i < |log| && Tells(log[i], incidents[e].ref, Open);
      assert Notices(log[i], incidents[e].ref, Open);
    }
    if troubles.misreads == 0 {
      forall i | 0 <= i < |log| && log[i].Announced? && log[i].payload.status == Open
                 && !StillOpen(incidents, log[i].payload)
        ensures exists j | 0 <= j < |log| :: Notices(log[j], log[i].payload.ref, Recovered)
      {
        assert OpeningSettled(incidents, log, i);
        var j :| 0 <= j < |log| && Tells(log[j], log[i].payload.ref, Recovered);
        assert Notices(log[j], log[i].payload.ref, Recovered);
      }
    }
  }

  predicate AnnouncedFor(log: seq<Entry>, ref: Ref, status: Status) {
    exists i | 0 <= i < |log| :: Notices(log[i], ref, status)
  }

  predicate LostFor(log: seq<Entry>, ref: Ref, status: Status) {
    exists i | 0 <= i < |log| :: log[i].Lost? && Tells(log[i], ref, status)
  }

  /** Nothing is both lost and announced, nor announced twice, then or ever after. */
  lemma ToldOnce(incidents: map<string, Incident>, log: seq<Entry>, nextRef: Ref, i: nat, j: nat)
    requires OneNotice(incidents, log, nextRef) && i < |log| && j < |log|
    requires IsTold(log[i]) && Tells(log[j], log[i].payload.ref, log[i].payload.status)
    ensures i == j
  {
    assert ToldApart(log, i, j) && ToldApart(log, j, i);
  }

  lemma AnnouncedOrLost(incidents: map<string, Incident>, log: seq<Entry>, nextRef: Ref, ref: Ref, status: Status)
    requires OneNotice(incidents, log, nextRef) && Told(log, ref, status)
    ensures !AnnouncedFor(log, ref, status) <==> LostFor(log, ref, status)
  {
    var i :| 0 <= i < |log| && Tells(log[i], ref, status);
    if AnnouncedFor(log, ref, status) && LostFor(log, ref, status) {
      var j :| 0 <= j < |log| && Notices(log[j], ref, status);
      var k :| 0 <= k < |log| && log[k].Lost? && Tells(log[k], ref, status);
      ToldOnce(incidents, log, nextRef, j, k);
    }
    assert Notices(log[i], ref, status) || log[i].Lost?;
  }

  /** The opening of an incident on disk was never announced exactly when a death took
      its notice; and the recovery of an opening that is neither open still nor
      overwritten was never announced exactly when a death took that. */
  lemma SilentExactly(incidents: map<string, Incident>, log: seq<Entry>, nextRef: Ref, troubles: Troubles)
    requires OneNotice(incidents, log, nextRef) && Explained(incidents, log, troubles)
    ensures forall e | e in incidents ::
              !AnnouncedFor(log, incidents[e].ref, Open) <==> LostFor(log, incidents[e].ref, Open)
    ensures forall i | 0 <= i < |log| && IsOpening(log[i]) && !StillOpen(incidents, log[i].payload)
                       && !Dropped(log, log[i].payload.ref) ::
              !AnnouncedFor(log, log[i].payload.ref, Recovered) <==> LostFor(log, log[i].payload.ref, Recovered)
  {
    forall e | e in incidents
      ensures !AnnouncedFor(log, incidents[e].ref, Open) <==> LostFor(log, incidents[e].ref, Open)
    {
      assert HadOpening(incidents, log, e);
      AnnouncedOrLost(incidents, log, nextRef, incidents[e].ref, Open);
    }
    forall i | 0 <= i < |log| && IsOpening(log[i]) && !StillOpen(incidents, log[i].payload)
               && !Dropped(log, log[i].payload.ref)
      ensures !AnnouncedFor(log, log[i].payload.ref, Recovered) <==> LostFor(log, log[i].payload.ref, Recovered)
    {
      assert OpeningSettled(incidents, log, i);
      AnnouncedOrLost(incidents, log, nextRef, log[i].payload.ref, Recovered);
    }
  }

  /** And it stays so: what is lost at one time is not announced at any later one. */
  lemma LostForGood(log: seq<Entry>, incidents: map<string, Incident>, longer: seq<Entry>, nextRef: Ref,
                    ref: Ref, status: Status)
    requires log <= longer && OneNotice(incidents, longer, nextRef) && LostFor(log, ref, status)
    ensures LostFor(longer, ref, status) && !AnnouncedFor(longer, ref, status)
  {
    var i :| 0 <= i < |log| && log[i].Lost? && Tells(log[i], ref, status);
    assert longer[i] == log[i];
    AnnouncedOrLost(incidents, longer, nextRef, ref, status);
  }

  lemma MoreTroubles(incidents: map<string, Incident>, log: seq<Entry>, a: Troubles, b: Troubles)
    requires a.Within(b)
    ensures Explained(incidents, log, a) ==> Explained(incidents, log, b)
  {
    if Explained(incidents, log, a) {
      forall i: int ensures Blames(log, b, i) {
        assert Blames(log, a, i);
      }
    }
  }

  /** Attempts open and close nothing, and deaths and misreads only add up. */
  lemma TriesExplainNothing(incidents: map<string, Incident>, log: seq<Entry>, es: seq<Entry>)
    requires OnlyTries(es)
    ensures forall a: Troubles, b: Troubles ::
              Explained(incidents, log, a) && a.Within(b) ==> Explained(incidents, log + es, b)
  {
    forall a: Troubles, b: Troubles | Explained(incidents, log, a) && a.Within(b)
      ensures Explained(incidents, log + es, b)
    {
      NothingBlamed(log, es, a, b);
      KeepsExplained(incidents, incidents, log, es, a, b);
    }
  }

  /** Entries that tell of no opening, and files that keep every reference open. */
  lemma KeepsExplained(incidents: map<string, Incident>, after: map<string, Incident>, log: seq<Entry>, es: seq<Entry>,
                       a: Troubles, b: Troubles)
    requires Explained(incidents, log, a)
    requires Blamed(log + es, b)
    requires forall e | e in after :: e in incidents && after[e].ref == incidents[e].ref
    requires forall e | e in incidents :: e in after || Told(log + es, incidents[e].ref, Recovered)
    requires forall i | 0 <= i < |es| :: !IsOpening(es[i])
    ensures Explained(after, log + es, b)
  {
    var longer := log + es;
    forall e: string ensures HadOpening(after, longer, e) {
      assert HadOpening(incidents, log, e);
      if e in after {
        ToldLonger(log, es, incidents[e].ref, Open);
      }
    }
    forall i: int ensures OpeningSettled(after, longer, i) {
      if 0 <= i < |longer| && IsOpening(longer[i]) {
        assert longer[i] == log[i] && OpeningSettled(incidents, log, i);
        ToldLonger(log, es, log[i].payload.ref, Recovered);
      }
    }
  }

  lemma RepeatExplained(incidents: map<string, Incident>, log: seq<Entry>, troubles: Troubles, event: string)
    requires Explained(incidents, log, troubles) && event in incidents
    ensures Explained(incidents[event := incidents[event].(count := incidents[event].count + 1)],
                      log + [OpenCommand(event)], troubles)
  {
    OneBlamed(log, OpenCommand(event), troubles, troubles);
    KeepsExplained(incidents, incidents[event := incidents[event].(count := incidents[event].count + 1)], log,
                   [OpenCommand(event)], troubles, troubles);
  }

  /** A new incident and its opening, queued or lost. */
  lemma OpeningExplained(incidents: map<string, Incident>, log: seq<Entry>, nextRef: Ref, a: Troubles, b: Troubles,
                         event: string, e: Entry)
    requires Explained(incidents, log, a) && Tells(e, nextRef, Open) && e.payload.event == event
    requires event in incidents ==> Dropped(log, incidents[event].ref)
    requires if e.Lost? then e.death == a.deaths && b == a.Death() else b == a
    ensures Explained(incidents[event := Incident(nextRef, 1)], log + [OpenCommand(event)] + [e], b)
  {
    var after := incidents[event := Incident(nextRef, 1)];
    var middle := log + [OpenCommand(event)];
    var es := [OpenCommand(event)] + [e];
    var longer := middle + [e];
    assert longer == log + es && longer[|log| + 1] == e;
    OneBlamed(log, OpenCommand(event), a, a);
    OneBlamed(middle, e, a, b);
    forall f: string ensures HadOpening(after, longer, f) {
      assert HadOpening(incidents, log, f);
      if f in after && f != event {
        ToldLonger(log, es, incidents[f].ref, Open);
      }
    }
    forall i: int ensures OpeningSettled(after, longer, i) {
      if 0 <= i < |log| && IsOpening(log[i]) {
        assert OpeningSettled(incidents, log, i);
        ToldLonger(log, es, log[i].payload.ref, Recovered);
      }
    }
  }

  lemma RecoveryExplained(incidents: map<string, Incident>, log: seq<Entry>, a: Troubles, b: Troubles,
                          event: string, e: Entry)
    requires Explained(incidents, log, a) && event in incidents
    requires Tells(e, incidents[event].ref, Recovered)
    requires if e.Lost? then e.death == a.deaths && b == a.Death() else b == a
    ensures Explained(incidents - {event}, log + [e], b)
  {
    OneBlamed(log, e, a, b);
    assert (log + [e])[|log|] == e;
    KeepsExplained(incidents, incidents - {event}, log, [e], a, b);
  }

  lemma NoticeExplained(incidents: map<string, Incident>, log: seq<Entry>, a: Troubles, b: Troubles, e: Entry)
    requires Explained(incidents, log, a) && IsTold(e) && e.payload.status == Notification
    requires if e.Lost? then e.death == a.deaths && b == a.Death() else b == a
    ensures Explained(incidents, log + [e], b)
  {
    OneBlamed(log, e, a, b);
    KeepsExplained(incidents, incidents, log, [e], a, b);
  }

  // ------------------------------------------------------------------- episodes

  /** Open commands for an event since its last recovery was announced. */
  function OpensSince(log: seq<Entry>, event: string): nat {
    if log == [] then 0
    else
      var n := |log| - 1;
      match log[n]
      case OpenCommand(e) => OpensSince(log[..n], event) + (if e == event then 1 else 0)
      case Announced(_, p, _, _) =>
        if p.event == event && p.status == Recovered then 0 else OpensSince(log[..n], event)
      case _ => OpensSince(log[..n], event)
  }

  /** The last open or recovered announcement of an event. */
  function LastNotice(log: seq<Entry>, event: string): Option<Payload> {
    if log == [] then None
    else
      var n := |log| - 1;
      if log[n].Announced? && log[n].payload.event == event && log[n].payload.status != Notification
      then Some(log[n].payload)
      else LastNotice(log[..n], event)
  }

  /** Openings and recoveries of each event alternate; a recovery carries the
      reference of its opening and the number of open commands in between. */
  predicate Paired(log: seq<Entry>) {
    log == [] ||
    (var n := |log| - 1;
     && Paired(log[..n])
     && (log[n].Announced? ==>
           var p := log[n].payload;
           var last := LastNotice(log[..n], p.event);
           match p.status
           case Open => last.None? || last.value.status == Recovered
           case Recovered =>
             && last.Some? && last.value.status == Open && last.value.ref == p.ref
             && p.count == OpensSince(log[..n], p.event)
           case Notification => true))
  }

  /** The incident files agree with the announcements. */
  ghost predicate EpisodesOk(incidents: map<string, Incident>, log: seq<Entry>) {
    && Paired(log)
    && forall e: string ::
         var last := LastNotice(log, e);
         if e in incidents
         then last.Some? && last.value.status == Open && last.value.ref == incidents[e].ref
              && incidents[e].count == OpensSince(log, e)
         else (last.None? || last.value.status == Recovered) && OpensSince(log, e) == 0
  }

  // -------------------------------------------------------------------- backoff

  /** When a channel of a record was tried. */
  function Times(log: seq<Entry>, n: Name, c: Channel): seq<real> {
    if log == [] then []
    else
      var k := |log| - 1;
      Times(log[..k], n, c) +
      if log[k].Tried? && log[k].name == n && log[k].channel == c then [log[k].at] else []
  }

  /** Each attempt waits out the delay its predecessors earned. */
  predicate Spaced(ts: seq<real>) {
    forall k | 1 <= k < |ts| :: ts[k] - ts[k - 1] >= Delay(k) as real
  }

  /** A pending channel's counters are those of its attempts so far. */
  predicate Clocked(s: ChannelState, ts: seq<real>) {
    s.pending ==>
      && s.attempts == |ts|
      && (ts != [] ==> s.next == ts[|ts| - 1] + Delay(|ts|) as real)
  }

  ghost predicate TimesOk(outbox: map<Name, Record>, log: seq<Entry>) {
    && (forall n: Name, c: Channel :: Spaced(Times(log, n, c)))
    && (forall n, c: Channel | n in outbox :: Clocked(outbox[n].Get(c), Times(log, n, c)))
  }

  lemma {:induction false} DelayRange(k: nat)
    requires k >= 1
    ensures 30 <= Delay(k) <= 3600
    ensures Delay(k) <= Delay(k + 1)
    ensures Delay(1) == 30 && (k <= 6 ==> Delay(k + 1) == 2 * Delay(k)) && (k >= 8 ==> Delay(k) == 3600)
  {
    PowerGrows(Exponent(k));
    PowerGrows(Exponent(k + 1));
    assert Power2(7) == 128;
  }

  lemma PowerGrows(n: nat)
    ensures 1 <= Power2(n) && Power2(n) <= Power2(n + 1)
  {
    if n > 0 {
      PowerGrows(n - 1);
    }
  }

  /** Seconds from the first to the n-th attempt, at the least. */
  function LeastSpan(n: nat): int
    requires n >= 1
  {
    if n == 1 then 0 else LeastSpan(n - 1) + Delay(n - 1)
  }

  lemma {:induction false} SpanFrom(ts: seq<real>, a: nat, n: nat)
    requires Spaced(ts) && n >= 1 && a + n <= |ts|
    ensures ts[a + n - 1] - ts[a] >= LeastSpan(n) as real
    decreases n
  {
    if n > 1 {
      SpanFrom(ts, a, n - 1);
      LaterIsLonger(n - 1, a + n - 1);
      assert ts[a + n - 1] - ts[a + n - 2] >= Delay(a + n - 1) as real;
    }
  }

  lemma {:induction false} LaterIsLonger(j: nat, k: nat)
    requires 1 <= j <= k
    ensures Delay(j) <= Delay(k)
    decreases k - j
  {
    if j < k {
      DelayRange(j);
      LaterIsLonger(j + 1, k);
    }
  }

  lemma {:induction false} SpanOfMany(n: nat)
    requires n >= 8
    ensures LeastSpan(n) == 3810 + 3600 * (n - 8)
    decreases n
  {
    if n == 8 {
      assert Power2(1) == 2 && Power2(2) == 4 && Power2(3) == 8 && Power2(4) == 16;
      assert Power2(5) == 32 && Power2(6) == 64;
      assert Delay(1) == 30 && Delay(2) == 60 && Delay(3) == 120 && Delay(4) == 240;
      assert Delay(5) == 480 && Delay(6) == 960 && Delay(7) == 1920;
      assert LeastSpan(4) == 210;
      assert LeastSpan(6) == 930;
    } else {
      SpanOfMany(n - 1);
      DelayRange(n - 1);
    }
  }

  /** Any span of at least 3810 seconds holds at most 8 + (span - 3810) / 3600 attempts. */
  lemma BackoffBound(ts: seq<real>, a: nat, n: nat, span: real)
    requires Spaced(ts) && n >= 1 && a + n <= |ts|
    requires span >= 3810.0 && ts[a + n - 1] - ts[a] <= span
    ensures n as real <= 8.0 + (span - 3810.0) / 3600.0
  {
    SpanFrom(ts, a, n);
    if n > 8 {
      SpanOfMany(n);
      assert LeastSpan(n) as real == 3810.0 + 3600.0 * (n - 8) as real;
    }
  }

  /** The bound for one channel of one notification: attempts a to a + n - 1. */
  lemma AttemptBound(outbox: map<Name, Record>, log: seq<Entry>, name: Name, c: Channel, a: nat, n: nat, span: real)
    requires TimesOk(outbox, log) && n >= 1 && a + n <= |Times(log, name, c)|
    requires span >= 3810.0 && Times(log, name, c)[a + n - 1] - Times(log, name, c)[a] <= span
    ensures n as real <= 8.0 + (span - 3810.0) / 3600.0
  {
    BackoffBound(Times(log, name, c), a, n, span);
  }

  /** Attempts made the moment they are due. */
  function Fastest(n: nat): (ts: seq<real>)
    requires n >= 1
    ensures |ts| == n
  {
    if n == 1 then [0.0]
    else
      var ts := Fastest(n - 1);
      ts + [ts[n - 2] + Delay(n - 1) as real]
  }

  /** The bound is met: n attempts can fall within 3810 + 3600 * (n - 8) seconds. */
  lemma {:induction false} FastestMeetsBound(n: nat)
    requires n >= 1
    ensures Spaced(Fastest(n)) && Fastest(n)[0] == 0.0 && Fastest(n)[n - 1] == LeastSpan(n) as real
    ensures n >= 8 ==> Fastest(n)[n - 1] == 3810.0 + 3600.0 * (n - 8) as real
  {
    if n > 1 {
      FastestMeetsBound(n - 1);
    }
    if n >= 8 {
      SpanOfMany(n);
    }
  }

  /** Consecutive attempts are at least 30 seconds apart, and the waits never shrink. */
  lemma WaitsGrow(ts: seq<real>, k: nat)
    requires Spaced(ts) && 1 <= k < |ts|
    ensures ts[k] - ts[k - 1] >= 30.0
    ensures forall j | 1 <= j <= k :: Delay(j) <= Delay(k)
  {
    DelayRange(k);
    forall j | 1 <= j <= k ensures Delay(j) <= Delay(k) {
      LaterIsLonger(j, k);
    }
  }

  // ------------------------------------------------------- what an attempt keeps

  /** The entries of one attempt_outbox call. */
  function Tries(n: Name, now: real, email: Option<bool>, webhook: Option<bool>): seq<Entry> {
    (if email.Some? then [Tried(n, Email, now, email.value)] else []) +
    (if webhook.Some? then [Tried(n, Webhook, now, webhook.value)] else [])
  }

  predicate OnlyTries(es: seq<Entry>) {
    forall i | 0 <= i < |es| :: es[i].Tried?
  }

  lemma StillAnnounced(log: seq<Entry>, es: seq<Entry>, n: Name, p: Payload)
    ensures AnnouncedAs(log, n, p) ==> AnnouncedAs(log + es, n, p) && Known(log + es, n)
    ensures Known(log, n) ==> Known(log + es, n)
  {
    if AnnouncedAs(log, n, p) {
      var i :| 0 <= i < |log| && log[i].Announced? && log[i].name == n && log[i].payload == p;
      assert (log + es)[i] == log[i];
    }
    if Known(log, n) {
      var i :| 0 <= i < |log| && log[i].Announced? && log[i].name == n;
      assert (log + es)[i] == log[i];
    }
  }

  lemma DeliveredLonger(log: seq<Entry>, es: seq<Entry>, n: Name, c: Channel)
    ensures Delivered(log, n, c) ==> Delivered(log + es, n, c)
  {
    if Delivered(log, n, c) {
      var i :| 0 <= i < |log| && log[i].Tried? && log[i].name == n && log[i].channel == c && log[i].ok;
      assert (log + es)[i] == log[i];
    }
  }

  /** The rewritten or removed file still waits for every channel not yet served;
      so does the file left as it was when the process dies before writing. */
  lemma KeepConserves(outbox: map<Name, Record>, log: seq<Entry>, n: Name, now: real,
                      email: Option<bool>, webhook: Option<bool>)
    requires Conserved(outbox, log) && n in outbox
    ensures Conserved(outbox, log + Tries(n, now, email, webhook))
    ensures Conserved(Keep(outbox, n, RecordAfter(outbox[n], now, email, webhook)), log + Tries(n, now, email, webhook))
  {
    var es := Tries(n, now, email, webhook);
    var longer := log + es;
    var r := RecordAfter(outbox[n], now, email, webhook);
    var kept := Keep(outbox, n, r);
    forall i, c | 0 <= i < |longer| && longer[i].Announced? && Wants(longer[i], c)
      ensures Delivered(longer, longer[i].name, c) ||
              (Waiting(kept, longer[i].name, c) && Waiting(outbox, longer[i].name, c))
    {
      assert longer[i] == log[i];
      DeliveredLonger(log, es, log[i].name, c);
      if log[i].name == n && !Delivered(log, n, c) {
        JustDelivered(log, n, now, email, webhook, c);
      }
    }
    forall m | m in outbox ensures AnnouncedAs(longer, m, outbox[m].payload) {
      StillAnnounced(log, es, m, outbox[m].payload);
    }
    forall i | 0 <= i < |longer| && longer[i].Tried? ensures Known(longer, longer[i].name) {
      StillAnnounced(log, es, longer[i].name, outbox[n].payload);
    }
  }

  /** What a crash keeps. */
  ghost predicate Lasting(incidents: map<string, Incident>, outbox: map<Name, Record>, log: seq<Entry>, nextRef: Ref) {
    Conserved(outbox, log) && OneNotice(incidents, log, nextRef)
  }

  /** What holds besides while no command died and every file could be read. */
  ghost predicate Orderly(incidents: map<string, Incident>, outbox: map<Name, Record>, log: seq<Entry>) {
    EpisodesOk(incidents, log) && TimesOk(outbox, log)
  }

  /** Everything that holds of the files and the record. */
  ghost predicate Sound(incidents: map<string, Incident>, outbox: map<Name, Record>, log: seq<Entry>, nextRef: Ref,
                        troubles: Troubles) {
    && Lasting(incidents, outbox, log, nextRef) && Explained(incidents, log, troubles)
    && (troubles.Calm() ==> Orderly(incidents, outbox, log))
  }

  lemma AttemptKeepsDurable(incidents: map<string, Incident>, outbox: map<Name, Record>, log: seq<Entry>, nextRef: Ref,
                            n: Name, now: real, email: Option<bool>, webhook: Option<bool>)
    requires Lasting(incidents, outbox, log, nextRef) && n in outbox
    ensures Lasting(incidents, outbox, log + Tries(n, now, email, webhook), nextRef)
    ensures Lasting(incidents, Keep(outbox, n, RecordAfter(outbox[n], now, email, webhook)),
                    log + Tries(n, now, email, webhook), nextRef)
  {
    KeepConserves(outbox, log, n, now, email, webhook);
    MoreUntold(incidents, log, nextRef, Tries(n, now, email, webhook));
  }

  lemma AttemptKeepsOrder(incidents: map<string, Incident>, outbox: map<Name, Record>, log: seq<Entry>,
                          n: Name, now: real, email: Option<bool>, webhook: Option<bool>)
    requires Orderly(incidents, outbox, log) && n in outbox
    requires TurnTaken(outbox[n].email, now, email) && TurnTaken(outbox[n].webhook, now, webhook)
    ensures Orderly(incidents, Keep(outbox, n, RecordAfter(outbox[n], now, email, webhook)),
                    log + Tries(n, now, email, webhook))
  {
    TriesKeepEpisodes(incidents, log, Tries(n, now, email, webhook));
    TriesKeepTimes(outbox, log, n, now, email, webhook);
  }

  lemma JustDelivered(log: seq<Entry>, n: Name, now: real, email: Option<bool>, webhook: Option<bool>, c: Channel)
    ensures (if c == Email then email else webhook) == Some(true) ==>
              Delivered(log + Tries(n, now, email, webhook), n, c)
  {
    var longer := log + Tries(n, now, email, webhook);
    if c == Email && email == Some(true) {
      assert longer[|log|] == Tried(n, Email, now, true);
    }
    if c == Webhook && webhook == Some(true) {
      assert longer[|longer| - 1] == Tried(n, Webhook, now, true);
    }
  }

  lemma {:induction false} TriesKeepEpisodes(incidents: map<string, Incident>, log: seq<Entry>, es: seq<Entry>)
    requires EpisodesOk(incidents, log) && OnlyTries(es)
    ensures EpisodesOk(incidents, log + es)
    decreases |es|
  {
    if es == [] {
      assert log + es == log;
    } else {
      var k := |es| - 1;
      TriesKeepEpisodes(incidents, log, es[..k]);
      assert (log + es)[..|log + es| - 1] == log + es[..k];
      assert (log + es)[|log + es| - 1] == es[k];
    }
  }

  lemma TimesAppend(log: seq<Entry>, e: Entry, n: Name, c: Channel)
    ensures Times(log + [e], n, c) ==
            Times(log, n, c) + (if e.Tried? && e.name == n && e.channel == c then [e.at] else [])
  {
    assert (log + [e])[..|log|] == log;
  }

  lemma TimesOfTries(log: seq<Entry>, n: Name, now: real, email: Option<bool>, webhook: Option<bool>,
                     m: Name, c: Channel)
    ensures Times(log + Tries(n, now, email, webhook), m, c) ==
            Times(log, m, c) +
            (if m == n && (if c == Email then email else webhook).Some? then [now] else [])
  {
    var first := if email.Some? then [Tried(n, Email, now, email.value)] else [];
    var second := if webhook.Some? then [Tried(n, Webhook, now, webhook.value)] else [];
    assert log + Tries(n, now, email, webhook) == (log + first) + second;
    if email.Some? {
      TimesAppend(log, first[0], m, c);
    } else {
      assert log + first == log;
    }
    if webhook.Some? {
      TimesAppend(log + first, second[0], m, c);
    } else {
      assert (log + first) + second == log + first;
    }
  }

  predicate TurnTaken(s: ChannelState, now: real, sent: Option<bool>) {
    sent.Some? <==> Due(s, now)
  }

  /** A due attempt extends a spaced series, and the counters follow it. */
  lemma TryKeepsClock(s: ChannelState, ts: seq<real>, now: real, sent: Option<bool>)
    requires Spaced(ts) && Clocked(s, ts) && TurnTaken(s, now, sent)
    ensures Spaced(ts + if sent.Some? then [now] else [])
    ensures Clocked(ChannelAfter(s, now, sent), ts + if sent.Some? then [now] else [])
  {
    if sent.None? {
      assert ts + [] == ts;
    }
  }

  lemma KeptChannel(outbox: map<Name, Record>, n: Name, now: real, email: Option<bool>, webhook: Option<bool>,
                    m: Name, c: Channel)
    requires n in outbox && m in Keep(outbox, n, RecordAfter(outbox[n], now, email, webhook))
    ensures m in outbox
    ensures Keep(outbox, n, RecordAfter(outbox[n], now, email, webhook))[m].Get(c) ==
            ChannelAfter(outbox[m].Get(c), now, if m == n then if c == Email then email else webhook else None)
  {
  }

  lemma TriesKeepTimes(outbox: map<Name, Record>, log: seq<Entry>, n: Name, now: real,
                       email: Option<bool>, webhook: Option<bool>)
    requires TimesOk(outbox, log) && n in outbox
    requires TurnTaken(outbox[n].email, now, email) && TurnTaken(outbox[n].webhook, now, webhook)
    ensures TimesOk(Keep(outbox, n, RecordAfter(outbox[n], now, email, webhook)),
                    log + Tries(n, now, email, webhook))
  {
    var longer := log + Tries(n, now, email, webhook);
    var kept := Keep(outbox, n, RecordAfter(outbox[n], now, email, webhook));
    forall m: Name, c: Channel
      ensures Spaced(Times(longer, m, c)) && (m in kept ==> Clocked(kept[m].Get(c), Times(longer, m, c)))
    {
      var sent := if m == n then if c == Email then email else webhook else None;
      var ts := Times(log, m, c);
      TimesOfTries(log, n, now, email, webhook, m, c);
      assert Spaced(ts);
      if m in outbox {
        assert Clocked(outbox[m].Get(c), ts);
      }
      if m == n {
        TryKeepsClock(outbox[m].Get(c), ts, now, sent);
      } else {
        assert ts + [] == ts;
      }
      if m in kept {
        KeptChannel(outbox, n, now, email, webhook, m, c);
      }
    }
  }

  // ---------------------------------------------------------- the bound is met

  /** An email notification whose every attempt so far failed, each made when due. */
  function FailingLog(n: Name, p: Payload, k: nat): seq<Entry> {
    if k == 0 then [Announced(n, p, true, false)]
    else FailingLog(n, p, k - 1) + [Tried(n, Email, Fastest(k)[k - 1], false)]
  }

  function FailingRecord(p: Payload, k: nat): Record {
    Record(p, ChannelState(true, k, if k == 0 then 0.0 else Fastest(k)[k - 1] + Delay(k) as real),
           ChannelState(false, 0, 0.0))
  }

  lemma {:induction false} FailingTimes(n: Name, p: Payload, k: nat, m: Name, c: Channel)
    ensures Times(FailingLog(n, p, k), m, c) == if m == n && c == Email && k > 0 then Fastest(k) else []
    decreases k
  {
    if k > 0 {
      FailingTimes(n, p, k - 1, m, c);
      TimesAppend(FailingLog(n, p, k - 1), Tried(n, Email, Fastest(k)[k - 1], false), m, c);
      if k > 1 {
        assert Fastest(k) == Fastest(k - 1) + [Fastest(k)[k - 1]];
      } else {
        assert Fastest(1) == [0.0] && [] + [0.0] == [0.0];
      }
    } else {
      assert Times([Announced(n, p, true, false)], m, c) == Times([], m, c) + [];
    }
  }

  /** Each of these attempts is one the engine makes: it is due, and the record after
      it is the engine's. */
  lemma FailingAttempt(n: Name, p: Payload, k: nat)
    requires k >= 1
    ensures var at := Fastest(k)[k - 1];
            var r := FailingRecord(p, k - 1);
            && TurnTaken(r.email, at, Some(false)) && TurnTaken(r.webhook, at, None)
            && RecordAfter(r, at, Some(false), None) == FailingRecord(p, k)
            && FailingLog(n, p, k) == FailingLog(n, p, k - 1) + Tries(n, at, Some(false), None)
  {
  }

  /** The bound is exact: for every k an orderly record of the engine holds k attempts
      of one notification within LeastSpan(k) seconds, which is 3810 + 3600 (k - 8)
      from k = 8 on. */
  lemma BoundIsMet(n: Name, p: Payload, k: nat)
    requires k >= 1
    ensures TimesOk(map[n := FailingRecord(p, k)], FailingLog(n, p, k))
    ensures var ts := Times(FailingLog(n, p, k), n, Email);
            |ts| == k && ts[k - 1] - ts[0] == LeastSpan(k) as real
            && (k >= 8 ==> k as real == 8.0 + (ts[k - 1] - ts[0] - 3810.0) / 3600.0)
  {
    FastestMeetsBound(k);
    forall m: Name, c: Channel
      ensures Spaced(Times(FailingLog(n, p, k), m, c))
      ensures m == n ==> Clocked(FailingRecord(p, k).Get(c), Times(FailingLog(n, p, k), m, c))
    {
      FailingTimes(n, p, k, m, c);
    }
    FailingTimes(n, p, k, n, Email);
  }

  // ------------------------------------------------------------- what a command does

  type Time = t: real | t >= 0.0 witness 0.0

  /** What the attempts of one command meet: the time at which each file has its turn,
      and the answer to each delivery. */
  datatype Round = Round(clock: Name -> Time, accepts: (Name, Channel) -> bool)

  /** The delivery a channel gets on its file's turn: none, unless it is pending and due. */
  function Answer(s: ChannelState, n: Name, c: Channel, round: Round): Option<bool> {
    if s.pending && s.next <= round.clock(n) then Some(round.accepts(n, c)) else None
  }

  /** The record after its turn. */
  function Attempted(r: Record, n: Name, round: Round): Record {
    RecordAfter(r, round.clock(n), Answer(r.email, n, Email, round), Answer(r.webhook, n, Webhook, round))
  }

  function TurnTries(r: Record, n: Name, round: Round): seq<Entry> {
    Tries(n, round.clock(n), Answer(r.email, n, Email, round), Answer(r.webhook, n, Webhook, round))
  }

  predicate Served(r: Record) {
    !r.email.pending && !r.webhook.pending
  }

  /** The outbox when all but the files `left` had their turn. */
  function PartlyRetried(outbox: map<Name, Record>, round: Round, left: set<Name>): map<Name, Record> {
    map n | n in outbox && (n in left || !Served(Attempted(outbox[n], n, round))) ::
      if n in left then outbox[n] else Attempted(outbox[n], n, round)
  }

  /** And when all had it. */
  function Retried(outbox: map<Name, Record>, round: Round): map<Name, Record> {
    map n | n in outbox && !Served(Attempted(outbox[n], n, round)) :: Attempted(outbox[n], n, round)
  }

  lemma OneMoreRetried(before: map<Name, Record>, round: Round, left: set<Name>, was: map<Name, Record>, n: Name)
    requires was == PartlyRetried(before, round, left) && n in left && left <= before.Keys
    ensures n in was && was[n] == before[n]
    ensures Keep(was, n, Attempted(was[n], n, round)) == PartlyRetried(before, round, left - {n})
  {
  }

  /** The deliveries of one channel of one file, in order. */
  function TriesOf(es: seq<Entry>, n: Name, c: Channel): seq<Entry> {
    if es == [] then []
    else
      var k := |es| - 1;
      TriesOf(es[..k], n, c) + if es[k].Tried? && es[k].name == n && es[k].channel == c then [es[k]] else []
  }

  /** These deliveries, and no other, for all but the files `left`. */
  predicate TriedOnce(outbox: map<Name, Record>, round: Round, left: set<Name>, es: seq<Entry>, n: Name, c: Channel) {
    TriesOf(es, n, c) ==
    if n in outbox && n !in left && outbox[n].Get(c).pending && outbox[n].Get(c).next <= round.clock(n)
    then [Tried(n, c, round.clock(n), round.accepts(n, c))] else []
  }

  ghost predicate AllTriedOnce(outbox: map<Name, Record>, round: Round, left: set<Name>, es: seq<Entry>) {
    OnlyTries(es) && forall n: Name, c: Channel :: TriedOnce(outbox, round, left, es, n, c)
  }

  lemma {:induction false} TriesOfAdds(es: seq<Entry>, more: seq<Entry>, n: Name, c: Channel)
    ensures TriesOf(es + more, n, c) == TriesOf(es, n, c) + TriesOf(more, n, c)
    decreases |more|
  {
    if more == [] {
      assert es + more == es;
    } else {
      var k := |more| - 1;
      assert (es + more)[..|es| + k] == es + more[..k] && (es + more)[|es| + k] == more[k];
      TriesOfAdds(es, more[..k], n, c);
    }
  }

  lemma TriesOfTurn(r: Record, n: Name, round: Round, m: Name, c: Channel)
    ensures TriesOf(TurnTries(r, n, round), m, c) ==
            if m == n && Answer(r.Get(c), n, c, round).Some?
            then [Tried(n, c, round.clock(n), round.accepts(n, c))] else []
  {
    var now, e, w := round.clock(n), Answer(r.email, n, Email, round), Answer(r.webhook, n, Webhook, round);
    var first := if e.Some? then [Tried(n, Email, now, e.value)] else [];
    var second := if w.Some? then [Tried(n, Webhook, now, w.value)] else [];
    TriesOfAdds(first, second, m, c);
  }

  lemma TurnIsTriedOnce(before: map<Name, Record>, round: Round, left: set<Name>, es: seq<Entry>, n: Name,
                        more: seq<Entry>, m: Name, c: Channel)
    requires TriedOnce(before, round, left, es, m, c) && n in left && n in before
    requires more == TurnTries(before[n], n, round)
    ensures TriedOnce(before, round, left - {n}, es + more, m, c)
  {
    TriesOfAdds(es, more, m, c);
    TriesOfTurn(before[n], n, round, m, c);
    if m == n {
      assert TriesOf(es, m, c) == [];
    }
  }

  lemma OnlyTriesAdd(es: seq<Entry>, r: Record, n: Name, round: Round)
    requires OnlyTries(es)
    ensures OnlyTries(es + TurnTries(r, n, round))
  {
  }

  lemma OneMoreTriedOnce(before: map<Name, Record>, round: Round, left: set<Name>, es: seq<Entry>, n: Name,
                         more: seq<Entry>)
    requires AllTriedOnce(before, round, left, es) && n in left && n in before
    requires more == TurnTries(before[n], n, round)
    ensures AllTriedOnce(before, round, left - {n}, es + more)
  {
    OnlyTriesAdd(es, before[n], n, round);
    forall m: Name, c: Channel ensures TriedOnce(before, round, left - {n}, es + more, m, c) {
      TurnIsTriedOnce(before, round, left, es, n, more, m, c);
    }
  }

  /** All files but those `left` had their turn, and `ok` says that none of them stayed. */
  ghost predicate HalfRetried(before: map<Name, Record>, outbox: map<Name, Record>, round: Round, left: set<Name>,
                              es: seq<Entry>, ok: bool) {
    && outbox == PartlyRetried(before, round, left) && AllTriedOnce(before, round, left, es)
    && (ok <==> outbox.Keys <= left)
  }

  lemma OneMoreHalf(before: map<Name, Record>, was: map<Name, Record>, round: Round, left: set<Name>,
                    start: seq<Entry>, log: seq<Entry>, ok: bool, n: Name)
    requires start <= log && HalfRetried(before, was, round, left, log[|start|..], ok)
    requires n in left && left <= before.Keys
    ensures n in was && was[n] == before[n]
    ensures var after := Keep(was, n, Attempted(was[n], n, round));
            HalfRetried(before, after, round, left - {n}, (log + TurnTries(was[n], n, round))[|start|..],
                        n !in after && ok)
  {
    var es, more := log[|start|..], TurnTries(before[n], n, round);
    OneMoreRetried(before, round, left, was, n);
    OneMoreTriedOnce(before, round, left, es, n, more);
    assert (log + more)[|start|..] == es + more;
    var after := Keep(was, n, Attempted(was[n], n, round));
    HalfOk(was, after, left, n);
  }

  lemma HalfOk(was: map<Name, Record>, after: map<Name, Record>, left: set<Name>, n: Name)
    requires n in was && n in left && (after.Keys == was.Keys || after.Keys == was.Keys - {n})
    ensures after.Keys <= left - {n} <==> n !in after && was.Keys <= left
  {
    if n !in after && was.Keys <= left {
      assert after.Keys == was.Keys - {n};
    }
    if after.Keys <= left - {n} {
      assert n !in after;
      forall m | m in was ensures m in left {
        assert m == n || m in after;
      }
    }
  }

  lemma Rejoin(before: seq<Entry>, log: seq<Entry>)
    requires before <= log
    ensures log == before + log[|before|..]
  {
  }

  /** When everything is due and every delivery is accepted, nothing is left. */
  lemma AllAccepted(outbox: map<Name, Record>, round: Round)
    requires forall n, c: Channel | n in outbox && outbox[n].Get(c).pending ::
               outbox[n].Get(c).next <= round.clock(n) && round.accepts(n, c)
    ensures Retried(outbox, round) == map[]
  {
    forall n | n in outbox ensures Served(Attempted(outbox[n], n, round)) {
      assert outbox[n].Get(Email) == outbox[n].email && outbox[n].Get(Webhook) == outbox[n].webhook;
    }
  }

  /** Since then there were only attempts. */
  predicate TriesSince(before: seq<Entry>, log: seq<Entry>) {
    before <= log && OnlyTries(log[|before|..])
  }

  lemma TriesAdd(before: seq<Entry>, middle: seq<Entry>, log: seq<Entry>)
    requires TriesSince(before, middle) && TriesSince(middle, log)
    ensures TriesSince(before, log)
  {
    forall i | |before| <= i < |log| ensures log[i].Tried? {
      assert i < |middle| ==> log[i] == middle[|before|..][i - |before|];
      assert i >= |middle| ==> log[i] == log[|middle|..][i - |middle|];
    }
  }

  /** One file was rewritten or removed. */
  predicate SameButFor(was: map<Name, Record>, outbox: map<Name, Record>, n: Name) {
    outbox.Keys <= was.Keys && forall m | m in was && m != n :: m in outbox && outbox[m] == was[m]
  }

  /** The files not yet reached are as they were, and none was added. */
  predicate StillAsRead(before: map<Name, Record>, outbox: map<Name, Record>, left: set<Name>) {
    left <= outbox.Keys <= before.Keys && forall n | n in left :: n in before && outbox[n] == before[n]
  }

  lemma OneFewerLeft(before: map<Name, Record>, was: map<Name, Record>, outbox: map<Name, Record>,
                     left: set<Name>, n: Name)
    requires StillAsRead(before, was, left) && SameButFor(was, outbox, n) && n in left
    ensures StillAsRead(before, outbox, left - {n})
    ensures outbox.Keys <= left - {n} <==> n !in outbox && was.Keys <= left
  {
    if was.Keys <= left && n !in outbox {
      assert outbox.Keys <= left - {n};
    }
    if outbox.Keys <= left - {n} {
      assert n !in outbox;
      forall m | m in was ensures m in left { }
    }
  }

  lemma AttemptIsOneFile(outbox: map<Name, Record>, log: seq<Entry>, n: Name, r: Record, now: real,
                         email: Option<bool>, webhook: Option<bool>)
    requires n in outbox
    ensures TriesSince(log, log + Tries(n, now, email, webhook))
    ensures SameButFor(outbox, outbox, n) && SameButFor(outbox, Keep(outbox, n, r), n)
  {
  }

  /** queue_notification names its file by the millisecond. */
  function NameOf(p: Payload, now: real): Name {
    Name((now * 1000.0).Floor, p.ref, p.status)
  }

  lemma NamedByMillisecond(p: Payload, now: real)
    ensures var n := NameOf(p, now);
            n.ref == p.ref && n.status == p.status && n.ms as real <= now * 1000.0 < n.ms as real + 1.0
  {
  }

  function Notice(p: Payload, now: real, emailOn: bool, webhookOn: bool): Entry {
    Announced(NameOf(p, now), p, emailOn, webhookOn)
  }

  lemma NewName(incidents: map<string, Incident>, log: seq<Entry>, nextRef: Ref, p: Payload, now: real)
    requires OneNotice(incidents, log, nextRef) && Silent(log, p.ref, p.status)
    ensures !Known(log, NameOf(p, now))
  {
    forall i | 0 <= i < |log| && log[i].Announced? ensures log[i].name != NameOf(p, now) {
      assert WellTold(log, nextRef, i) && !Tells(log[i], p.ref, p.status);
    }
  }

  /** A notification as queue_notification writes it. */
  function NewRecord(p: Payload, emailOn: bool, webhookOn: bool): Record {
    Record(p, ChannelState(emailOn, 0, 0.0), ChannelState(webhookOn, 0, 0.0))
  }

  /** The outbox after queue_notification: nothing is written when no channel is on. */
  function Queued(outbox: map<Name, Record>, n: Name, p: Payload, emailOn: bool, webhookOn: bool): map<Name, Record> {
    if emailOn || webhookOn then outbox[n := NewRecord(p, emailOn, webhookOn)] else outbox
  }

  lemma QueueConserves(outbox: map<Name, Record>, log: seq<Entry>, n: Name, p: Payload, emailOn: bool, webhookOn: bool)
    requires Conserved(outbox, log) && !Known(log, n)
    ensures n !in outbox
    ensures Conserved(Queued(outbox, n, p, emailOn, webhookOn), log + [Announced(n, p, emailOn, webhookOn)])
  {
    var e := Announced(n, p, emailOn, webhookOn);
    var longer := log + [e];
    var queued := Queued(outbox, n, p, emailOn, webhookOn);
    assert longer[|log|] == e;
    assert n in outbox ==> AnnouncedAs(log, n, outbox[n].payload);
    forall i, c | 0 <= i < |longer| && longer[i].Announced? && Wants(longer[i], c)
      ensures Delivered(longer, longer[i].name, c) || Waiting(queued, longer[i].name, c)
    {
      if i < |log| {
        DeliveredLonger(log, [e], log[i].name, c);
        assert log[i].name != n;
      }
    }
    forall m | m in queued ensures AnnouncedAs(longer, m, queued[m].payload) {
      if m != n {
        StillAnnounced(log, [e], m, outbox[m].payload);
      }
    }
    forall i | 0 <= i < |longer| && longer[i].Tried? ensures Known(longer, longer[i].name) {
      StillAnnounced(log, [e], log[i].name, p);
    }
  }

  lemma {:induction false} NeverTried(log: seq<Entry>, n: Name, c: Channel)
    requires forall i | 0 <= i < |log| && log[i].Tried? :: log[i].name != n
    ensures Times(log, n, c) == []
  {
    if log != [] {
      NeverTried(log[..|log| - 1], n, c);
    }
  }

  lemma QueueKeepsTimes(outbox: map<Name, Record>, log: seq<Entry>, n: Name, p: Payload, emailOn: bool, webhookOn: bool)
    requires TimesOk(outbox, log) && Conserved(outbox, log) && !Known(log, n)
    ensures TimesOk(Queued(outbox, n, p, emailOn, webhookOn), log + [Announced(n, p, emailOn, webhookOn)])
  {
    var e := Announced(n, p, emailOn, webhookOn);
    var queued := Queued(outbox, n, p, emailOn, webhookOn);
    forall m: Name, c: Channel
      ensures Spaced(Times(log + [e], m, c)) && (m in queued ==> Clocked(queued[m].Get(c), Times(log + [e], m, c)))
    {
      TimesAppend(log, e, m, c);
      assert Spaced(Times(log, m, c));
      if m == n {
        NeverTried(log, n, c);
      } else if m in outbox {
        assert Clocked(outbox[m].Get(c), Times(log, m, c));
      }
    }
  }

  lemma AppendDrops(log: seq<Entry>, e: Entry)
    ensures (log + [e])[..|log + [e]| - 1] == log && (log + [e])[|log + [e]| - 1] == e
  {
  }

  /** A duplicate open counts and announces nothing. */
  lemma DuplicateKeepsEpisodes(incidents: map<string, Incident>, log: seq<Entry>, event: string)
    requires EpisodesOk(incidents, log) && event in incidents
    ensures EpisodesOk(incidents[event := incidents[event].(count := incidents[event].count + 1)],
                       log + [OpenCommand(event)])
  {
    AppendDrops(log, OpenCommand(event));
  }

  lemma OpeningKeepsEpisodes(incidents: map<string, Incident>, log: seq<Entry>, event: string, ref: Ref,
                             n: Name, emailOn: bool, webhookOn: bool)
    requires EpisodesOk(incidents, log) && event !in incidents
    ensures EpisodesOk(incidents[event := Incident(ref, 1)],
                       log + [OpenCommand(event)] + [Announced(n, Payload(event, ref, Open, 1), emailOn, webhookOn)])
  {
    var p := Payload(event, ref, Open, 1);
    var middle := log + [OpenCommand(event)];
    var longer := middle + [Announced(n, p, emailOn, webhookOn)];
    AppendDrops(log, OpenCommand(event));
    AppendDrops(middle, Announced(n, p, emailOn, webhookOn));
    assert Paired(middle) && LastNotice(middle, event) == LastNotice(log, event);
    forall e: string
      ensures LastNotice(longer, e) == (if e == event then Some(p) else LastNotice(log, e))
      ensures OpensSince(longer, e) == OpensSince(log, e) + (if e == event then 1 else 0)
    {
      assert LastNotice(middle, e) == LastNotice(log, e);
      assert OpensSince(longer, e) == OpensSince(middle, e);
    }
  }

  lemma RecoveryKeepsEpisodes(incidents: map<string, Incident>, log: seq<Entry>, event: string,
                              n: Name, emailOn: bool, webhookOn: bool)
    requires EpisodesOk(incidents, log) && event in incidents
    ensures EpisodesOk(incidents - {event},
                       log + [Announced(n, Payload(event, incidents[event].ref, Recovered, incidents[event].count),
                                        emailOn, webhookOn)])
  {
    AppendDrops(log, Announced(n, Payload(event, incidents[event].ref, Recovered, incidents[event].count),
                               emailOn, webhookOn));
  }

  lemma NoticeKeepsEpisodes(incidents: map<string, Incident>, log: seq<Entry>, event: string, ref: Ref,
                            n: Name, emailOn: bool, webhookOn: bool)
    requires EpisodesOk(incidents, log)
    ensures EpisodesOk(incidents, log + [Announced(n, Payload(event, ref, Notification, 1), emailOn, webhookOn)])
  {
    AppendDrops(log, Announced(n, Payload(event, ref, Notification, 1), emailOn, webhookOn));
  }

  /** A process that dies while it tries a record leaves everything explained. */
  lemma AttemptKeepsSound(incidents: map<string, Incident>, outbox: map<Name, Record>, log: seq<Entry>, nextRef: Ref,
                          a: Troubles, b: Troubles, n: Name, now: real, email: Option<bool>, webhook: Option<bool>)
    requires Sound(incidents, outbox, log, nextRef, a) && n in outbox && a.Within(b)
    ensures b.deaths > 0 ==> Sound(incidents, outbox, log + Tries(n, now, email, webhook), nextRef, b)
    ensures TurnTaken(outbox[n].email, now, email) && TurnTaken(outbox[n].webhook, now, webhook) ==>
              Sound(incidents, Keep(outbox, n, RecordAfter(outbox[n], now, email, webhook)),
                    log + Tries(n, now, email, webhook), nextRef, a)
  {
    AttemptKeepsDurable(incidents, outbox, log, nextRef, n, now, email, webhook);
    TriesExplainNothing(incidents, log, Tries(n, now, email, webhook));
    if a.Calm() && TurnTaken(outbox[n].email, now, email) && TurnTaken(outbox[n].webhook, now, webhook) {
      AttemptKeepsOrder(incidents, outbox, log, n, now, email, webhook);
    }
  }

  // Each command's own entries keep what a crash keeps.

  /** An open command writes its incident: a repeat keeps the reference, and a new
      one takes the next reference. */
  lemma OpenCommandLasts(incidents: map<string, Incident>, outbox: map<Name, Record>, log: seq<Entry>, nextRef: Ref,
                         event: string, incident: Incident)
    requires Lasting(incidents, outbox, log, nextRef)
    requires incident.ref == nextRef || (event in incidents && incident.ref == incidents[event].ref)
    ensures Lasting(incidents[event := incident], outbox, log + [OpenCommand(event)],
                    if incident.ref == nextRef then nextRef + 1 else nextRef)
  {
    var es := [OpenCommand(event)];
    var longer := log + es;
    forall i, c | 0 <= i < |longer| && longer[i].Announced? && Wants(longer[i], c)
      ensures Delivered(longer, longer[i].name, c) || Waiting(outbox, longer[i].name, c)
    {
      DeliveredLonger(log, es, log[i].name, c);
    }
    forall n | n in outbox ensures AnnouncedAs(longer, n, outbox[n].payload) {
      StillAnnounced(log, es, n, outbox[n].payload);
    }
    forall i | 0 <= i < |longer| && longer[i].Tried? ensures Known(longer, longer[i].name) {
      StillAnnounced(log, es, log[i].name, Payload(event, 0, Open, 0));
    }
    Refiled(incidents, log, nextRef, event, incident);
    MoreUntold(incidents[event := incident], log, if incident.ref == nextRef then nextRef + 1 else nextRef, es);
  }

  /** A new notice may be told of, queued or lost. */
  lemma MayTell(incidents: map<string, Incident>, log: seq<Entry>, nextRef: Ref, e: Entry, death: nat)
    requires OneNotice(incidents, log, nextRef)
    requires e.Announced? && e.payload.ref < nextRef && Silent(log, e.payload.ref, e.payload.status)
    requires e.name.ref == e.payload.ref && e.name.status == e.payload.status
    requires e.payload.status == Recovered ==> forall f | f in incidents :: incidents[f].ref != e.payload.ref
    ensures OneNotice(incidents, log + [e], nextRef) && OneNotice(incidents, log + [Lost(e.payload, death)], nextRef)
  {
    OneMoreTold(incidents, log, nextRef, e);
    OneMoreTold(incidents, log, nextRef, Lost(e.payload, death));
  }

  lemma OpeningLasts(incidents: map<string, Incident>, outbox: map<Name, Record>, log: seq<Entry>, nextRef: Ref,
                     event: string, e: Entry, death: nat)
    requires Lasting(incidents, outbox, log, nextRef)
    requires Notices(e, nextRef, Open) && e.name.ref == nextRef && e.name.status == Open
    ensures var after, longer := incidents[event := Incident(nextRef, 1)], log + [OpenCommand(event)];
            && Lasting(after, outbox, longer, nextRef + 1) && Silent(longer, nextRef, Open)
            && OneNotice(after, longer + [e], nextRef + 1)
            && OneNotice(after, longer + [Lost(e.payload, death)], nextRef + 1)
  {
    NotDealt(incidents, log, nextRef, Open);
    OpenCommandLasts(incidents, outbox, log, nextRef, event, Incident(nextRef, 1));
    MayTell(incidents[event := Incident(nextRef, 1)], log + [OpenCommand(event)], nextRef + 1, e, death);
  }

  lemma RecoveryLasts(incidents: map<string, Incident>, outbox: map<Name, Record>, log: seq<Entry>, nextRef: Ref,
                      event: string, e: Entry, death: nat)
    requires Lasting(incidents, outbox, log, nextRef) && event in incidents
    requires Notices(e, incidents[event].ref, Recovered)
    requires e.name.ref == incidents[event].ref && e.name.status == Recovered
    ensures Lasting(incidents - {event}, outbox, log, nextRef)
    ensures Silent(log, incidents[event].ref, Recovered)
    ensures OneNotice(incidents - {event}, log + [e], nextRef)
    ensures OneNotice(incidents - {event}, log + [Lost(e.payload, death)], nextRef)
  {
    Unfiled(incidents, log, nextRef, event);
    MayTell(incidents - {event}, log, nextRef, e, death);
  }

  lemma NotificationLasts(incidents: map<string, Incident>, outbox: map<Name, Record>, log: seq<Entry>, nextRef: Ref,
                          e: Entry, death: nat)
    requires Lasting(incidents, outbox, log, nextRef)
    requires Notices(e, nextRef, Notification) && e.name.ref == nextRef && e.name.status == Notification
    ensures Lasting(incidents, outbox, log, nextRef + 1)
    ensures Silent(log, nextRef, Notification)
    ensures OneNotice(incidents, log + [e], nextRef + 1)
    ensures OneNotice(incidents, log + [Lost(e.payload, death)], nextRef + 1)
  {
    NotDealt(incidents, log, nextRef, Notification);
    OneDealt(incidents, log, nextRef, nextRef + 1);
    MayTell(incidents, log, nextRef + 1, e, death);
  }

  /** A lost notice or an overwritten incident leaves what is on disk as it is. */
  lemma AsideLasts(incidents: map<string, Incident>, outbox: map<Name, Record>, log: seq<Entry>, nextRef: Ref, e: Entry)
    requires Lasting(incidents, outbox, log, nextRef) && (e.Lost? || e.Overwritten?)
    requires OneNotice(incidents, log + [e], nextRef)
    ensures Lasting(incidents, outbox, log + [e], nextRef)
  {
    var longer := log + [e];
    forall i, c | 0 <= i < |longer| && longer[i].Announced? && Wants(longer[i], c)
      ensures Delivered(longer, longer[i].name, c) || Waiting(outbox, longer[i].name, c)
    {
      DeliveredLonger(log, [e], log[i].name, c);
    }
    forall n | n in outbox ensures AnnouncedAs(longer, n, outbox[n].payload) {
      StillAnnounced(log, [e], n, outbox[n].payload);
    }
    forall i | 0 <= i < |longer| && longer[i].Tried? ensures Known(longer, longer[i].name) {
      StillAnnounced(log, [e], log[i].name, Payload("", 0, Open, 0));
    }
  }

  /** An unreadable incident about to be written over; `before` is as it was when the
      file could not be read. */
  lemma OverwriteLasts(incidents: map<string, Incident>, outbox: map<Name, Record>, log: seq<Entry>, nextRef: Ref,
                       before: Troubles, troubles: Troubles, event: string)
    requires Lasting(incidents, outbox, log, nextRef) && Explained(incidents, log, before)
    requires event in incidents && before.Misread().Within(troubles)
    ensures var e := Overwritten(event, incidents[event].ref, before.misreads);
            && Lasting(incidents, outbox, log + [e], nextRef)
            && Explained(incidents, log + [e], troubles)
            && Dropped(log + [e], incidents[event].ref)
  {
    var e := Overwritten(event, incidents[event].ref, before.misreads);
    MoreUntold(incidents, log, nextRef, [e]);
    AsideLasts(incidents, outbox, log, nextRef, e);
    OneBlamed(log, e, before, troubles);
    KeepsExplained(incidents, incidents, log, [e], before, troubles);
    assert (log + [e])[|log|] == e;
  }

  /** Ready to announce: all that a crash keeps, before and after the notice, queued
      or lost. */
  ghost predicate Ready(incidents: map<string, Incident>, outbox: map<Name, Record>, log: seq<Entry>, nextRef: Ref,
                        troubles: Troubles, p: Payload, e: Entry) {
    && Lasting(incidents, outbox, log, nextRef) && Silent(log, p.ref, p.status)
    && OneNotice(incidents, log + [e], nextRef) && OneNotice(incidents, log + [Lost(p, troubles.deaths)], nextRef)
    && Explained(incidents, log + [e], troubles)
    && Explained(incidents, log + [Lost(p, troubles.deaths)], troubles.Death())
  }

  lemma OpeningReady(incidents: map<string, Incident>, outbox: map<Name, Record>, log: seq<Entry>, nextRef: Ref,
                     troubles: Troubles, event: string, e: Entry)
    requires Lasting(incidents, outbox, log, nextRef) && Explained(incidents, log, troubles)
    requires event in incidents ==> Dropped(log, incidents[event].ref)
    requires Notices(e, nextRef, Open) && e.payload.event == event
    requires e.name.ref == nextRef && e.name.status == Open
    ensures Ready(incidents[event := Incident(nextRef, 1)], outbox, log + [OpenCommand(event)], nextRef + 1,
                  troubles, e.payload, e)
  {
    OpeningLasts(incidents, outbox, log, nextRef, event, e, troubles.deaths);
    OpeningExplained(incidents, log, nextRef, troubles, troubles, event, e);
    OpeningExplained(incidents, log, nextRef, troubles, troubles.Death(), event, Lost(e.payload, troubles.deaths));
  }

  lemma RecoveryReady(incidents: map<string, Incident>, outbox: map<Name, Record>, log: seq<Entry>, nextRef: Ref,
                      troubles: Troubles, event: string, e: Entry)
    requires Lasting(incidents, outbox, log, nextRef) && Explained(incidents, log, troubles)
    requires event in incidents && Notices(e, incidents[event].ref, Recovered)
    requires e.name.ref == incidents[event].ref && e.name.status == Recovered
    ensures Ready(incidents - {event}, outbox, log, nextRef, troubles, e.payload, e)
  {
    RecoveryLasts(incidents, outbox, log, nextRef, event, e, troubles.deaths);
    RecoveryExplained(incidents, log, troubles, troubles, event, e);
    RecoveryExplained(incidents, log, troubles, troubles.Death(), event, Lost(e.payload, troubles.deaths));
  }

  lemma NotificationReady(incidents: map<string, Incident>, outbox: map<Name, Record>, log: seq<Entry>, nextRef: Ref,
                          troubles: Troubles, e: Entry)
    requires Lasting(incidents, outbox, log, nextRef) && Explained(incidents, log, troubles)
    requires Notices(e, nextRef, Notification) && e.name.ref == nextRef && e.name.status == Notification
    ensures Ready(incidents, outbox, log, nextRef + 1, troubles, e.payload, e)
  {
    NotificationLasts(incidents, outbox, log, nextRef, e, troubles.deaths);
    NoticeExplained(incidents, log, troubles, troubles, e);
    NoticeExplained(incidents, log, troubles, troubles.Death(), Lost(e.payload, troubles.deaths));
  }

  lemma OpenCommandKeepsTimes(outbox: map<Name, Record>, log: seq<Entry>, event: string)
    requires TimesOk(outbox, log)
    ensures TimesOk(outbox, log + [OpenCommand(event)])
  {
    forall n: Name, c: Channel ensures Times(log + [OpenCommand(event)], n, c) == Times(log, n, c) {
      TimesAppend(log, OpenCommand(event), n, c);
    }
  }

  lemma DuplicateKeepsOrder(incidents: map<string, Incident>, outbox: map<Name, Record>, log: seq<Entry>, event: string)
    requires Orderly(incidents, outbox, log) && event in incidents
    ensures Orderly(incidents[event := incidents[event].(count := incidents[event].count + 1)], outbox,
                    log + [OpenCommand(event)])
  {
    DuplicateKeepsEpisodes(incidents, log, event);
    OpenCommandKeepsTimes(outbox, log, event);
  }

  // ----------------------------------------------------- the engine as a machine

  /** One command: open, recover or notify, the time it is given, and what it meets. */
  datatype Command = Command(verb: Status, event: string, now: Time, emailOn: bool, webhookOn: bool, round: Round)

  function NoticeOf(p: Payload, c: Command): Entry {
    Notice(p, c.now, c.emailOn, c.webhookOn)
  }

  /** The deliveries of a new notice: each channel that is on is tried at once. */
  function FirstTries(p: Payload, c: Command): seq<Entry> {
    var n := NameOf(p, c.now);
    Tries(n, c.round.clock(n), if c.emailOn then Some(c.round.accepts(n, Email)) else None,
          if c.webhookOn then Some(c.round.accepts(n, Webhook)) else None)
  }

  /** The outbox after a new notice and its first tries. */
  function Sent(outbox: map<Name, Record>, p: Payload, c: Command): map<Name, Record> {
    var n := NameOf(p, c.now);
    var r := Attempted(NewRecord(p, c.emailOn, c.webhookOn), n, c.round);
    if Served(r) then outbox else outbox[n := r]
  }

  /** What is on disk. */
  datatype Disk = Disk(incidents: map<string, Incident>, outbox: map<Name, Record>, nextRef: Ref)

  /** A command that meets no death and no unreadable file: a repeat is counted and not
      announced; an opening, a recovery and a notification are announced once each, with
      a new reference, the incident's, and a new one. */
  function Obeyed(d: Disk, c: Command): Disk {
    AfterRetry(d.(outbox := Retried(d.outbox, c.round)), c)
  }

  /** The same without the retry that comes first. */
  function AfterRetry(d: Disk, c: Command): Disk {
    match c.verb
    case Open =>
      if c.event in d.incidents then
        var was := d.incidents[c.event];
        Disk(d.incidents[c.event := Incident(was.ref, was.count + 1)], d.outbox, d.nextRef)
      else
        Disk(d.incidents[c.event := Incident(d.nextRef, 1)], Sent(d.outbox, Payload(c.event, d.nextRef, Open, 1), c),
             d.nextRef + 1)
    case Recovered =>
      if c.event !in d.incidents then d
      else
        var was := d.incidents[c.event];
        Disk(d.incidents - {c.event}, Sent(d.outbox, Payload(c.event, was.ref, Recovered, was.count), c), d.nextRef)
    case Notification =>
      Disk(d.incidents, Sent(d.outbox, Payload(c.event, d.nextRef, Notification, 1), c), d.nextRef + 1)
  }

  function ObeyedAll(d: Disk, cs: seq<Command>): Disk {
    if cs == [] then d else Obeyed(ObeyedAll(d, cs[..|cs| - 1]), cs[|cs| - 1])
  }

  /** What it adds to the record once the outbox was retried. */
  function Recorded(d: Disk, c: Command): seq<Entry> {
    match c.verb
    case Open =>
      if c.event in d.incidents then [OpenCommand(c.event)]
      else
        var p := Payload(c.event, d.nextRef, Open, 1);
        [OpenCommand(c.event)] + [NoticeOf(p, c)] + FirstTries(p, c)
    case Recovered =>
      if c.event !in d.incidents then []
      else
        var p := Payload(c.event, d.incidents[c.event].ref, Recovered, d.incidents[c.event].count);
        [NoticeOf(p, c)] + FirstTries(p, c)
    case Notification =>
      var p := Payload(c.event, d.nextRef, Notification, 1);
      [NoticeOf(p, c)] + FirstTries(p, c)
  }

  /** A command's entries: one delivery for each channel that was pending and due, and
      then its own. */
  ghost predicate RecordedFrom(d: Disk, c: Command, tries: seq<Entry>, before: seq<Entry>, log: seq<Entry>) {
    AllTriedOnce(d.outbox, c.round, {}, tries) && log == before + tries + Recorded(d, c)
  }

  lemma RetriedFirst(d: Disk, c: Command)
    ensures Recorded(d.(outbox := Retried(d.outbox, c.round)), c) == Recorded(d, c)
  {
  }

  lemma Regroup(a: seq<Entry>, b: seq<Entry>, c: seq<Entry>)
    ensures a + b + c == a + (b + c)
  {
  }

  /** A new record's first turn is its first tries, and leaves what Sent says. */
  lemma FirstTurn(p: Payload, c: Command, outbox: map<Name, Record>)
    requires NameOf(p, c.now) !in outbox
    ensures var n, r := NameOf(p, c.now), NewRecord(p, c.emailOn, c.webhookOn);
            && TurnTries(r, n, c.round) == FirstTries(p, c)
            && Keep(outbox[n := r], n, Attempted(r, n, c.round)) == Sent(outbox, p, c)
            && (Sent(outbox, p, c) == map[] <==> outbox == map[] && Served(Attempted(r, n, c.round)))
            && (!c.emailOn && !c.webhookOn ==> FirstTries(p, c) == [] && Sent(outbox, p, c) == outbox)
  {
    var n, r := NameOf(p, c.now), NewRecord(p, c.emailOn, c.webhookOn);
    assert Keep(outbox[n := r], n, Attempted(r, n, c.round)) == Sent(outbox, p, c);
    if !Served(Attempted(r, n, c.round)) {
      assert n in Sent(outbox, p, c);
    }
  }

  /** The record will be orderly once this is announced. */
  ghost predicate InOrderWith(incidents: map<string, Incident>, outbox: map<Name, Record>, log: seq<Entry>, e: Entry) {
    EpisodesOk(incidents, log + [e]) && TimesOk(outbox, log)
  }

  lemma OpeningInOrder(incidents: map<string, Incident>, outbox: map<Name, Record>, log: seq<Entry>,
                       event: string, ref: Ref, n: Name, emailOn: bool, webhookOn: bool)
    requires Orderly(incidents, outbox, log) && event !in incidents
    ensures InOrderWith(incidents[event := Incident(ref, 1)], outbox, log + [OpenCommand(event)],
                        Announced(n, Payload(event, ref, Open, 1), emailOn, webhookOn))
  {
    OpeningKeepsEpisodes(incidents, log, event, ref, n, emailOn, webhookOn);
    OpenCommandKeepsTimes(outbox, log, event);
  }

  lemma RecoveryInOrder(incidents: map<string, Incident>, outbox: map<Name, Record>, log: seq<Entry>,
                        event: string, n: Name, emailOn: bool, webhookOn: bool)
    requires Orderly(incidents, outbox, log) && event in incidents
    ensures InOrderWith(incidents - {event}, outbox, log,
                        Announced(n, Payload(event, incidents[event].ref, Recovered, incidents[event].count),
                                  emailOn, webhookOn))
  {
    RecoveryKeepsEpisodes(incidents, log, event, n, emailOn, webhookOn);
  }

  lemma NoticeInOrder(incidents: map<string, Incident>, outbox: map<Name, Record>, log: seq<Entry>,
                      event: string, ref: Ref, n: Name, emailOn: bool, webhookOn: bool)
    requires Orderly(incidents, outbox, log)
    ensures InOrderWith(incidents, outbox, log,
                        Announced(n, Payload(event, ref, Notification, 1), emailOn, webhookOn))
  {
    NoticeKeepsEpisodes(incidents, log, event, ref, n, emailOn, webhookOn);
  }

  /** A repeated open command keeps everything. */
  lemma RepeatLasts(incidents: map<string, Incident>, outbox: map<Name, Record>, log: seq<Entry>, nextRef: Ref,
                    troubles: Troubles, event: string)
    requires Lasting(incidents, outbox, log, nextRef) && Explained(incidents, log, troubles)
    requires troubles.Calm() ==> Orderly(incidents, outbox, log)
    requires event in incidents
    ensures var more := incidents[event := incidents[event].(count := incidents[event].count + 1)];
            var longer := log + [OpenCommand(event)];
            && Lasting(more, outbox, longer, nextRef) && Explained(more, longer, troubles)
            && (troubles.Calm() ==> Orderly(more, outbox, longer))
  {
    NotDealt(incidents, log, nextRef, Open);
    OpenCommandLasts(incidents, outbox, log, nextRef, event, incidents[event].(count := incidents[event].count + 1));
    RepeatExplained(incidents, log, troubles, event);
    if troubles.Calm() {
      DuplicateKeepsOrder(incidents, outbox, log, event);
    }
  }

  lemma SilentRecord(p: Payload, death: nat)
    ensures var log := [] + [OpenCommand(p.event)] + [Lost(p, death)] + [OpenCommand(p.event)];
            LostFor(log, p.ref, p.status) && !AnnouncedFor(log, p.ref, p.status)
  {
    var log := [] + [OpenCommand(p.event)] + [Lost(p, death)] + [OpenCommand(p.event)];
    assert log[1] == Lost(p, death);
  }

  /** From any sound state: one death between the incident file and its notice, and one
      more open command, leave an incident counted twice and never announced. */
  lemma OneDeathSilences(incidents: map<string, Incident>, outbox: map<Name, Record>, log: seq<Entry>, nextRef: Ref,
                         troubles: Troubles, event: string)
    requires Sound(incidents, outbox, log, nextRef, troubles) && event !in incidents
    ensures var died := log + [OpenCommand(event)] + [Lost(Payload(event, nextRef, Open, 1), troubles.deaths)];
            var longer := died + [OpenCommand(event)];
            && Sound(incidents[event := Incident(nextRef, 2)], outbox, longer, nextRef + 1, troubles.Death())
            && LostFor(longer, nextRef, Open) && !AnnouncedFor(longer, nextRef, Open)
  {
    var p := Payload(event, nextRef, Open, 1);
    var filed := incidents[event := Incident(nextRef, 1)];
    var asked := log + [OpenCommand(event)];
    var died := asked + [Lost(p, troubles.deaths)];
    OpeningReady(incidents, outbox, log, nextRef, troubles, event, Notice(p, 0.0, true, true));
    AsideLasts(filed, outbox, asked, nextRef + 1, Lost(p, troubles.deaths));
    RepeatLasts(filed, outbox, died, nextRef + 1, troubles.Death(), event);
    assert died[|asked|] == Lost(p, troubles.deaths);
    var after := filed[event := Incident(nextRef, 2)];
    assert after == incidents[event := Incident(nextRef, 2)];
    LostForGood(died, after, died + [OpenCommand(event)], nextRef + 1, nextRef, Open);
  }

  /** Read off the record: a recovery notice answers one opening, the last notice
      of its event before it, and carries its reference. */
  lemma {:induction false} RecoveryAnswersOpening(log: seq<Entry>, j: nat)
    requires Paired(log) && j < |log| && log[j].Announced? && log[j].payload.status == Recovered
    ensures exists i | 0 <= i < j :: Answers(log, i, j)
    ensures log[j].payload.count == OpensSince(log[..j], log[j].payload.event)
  {
    PairedPrefix(log, j + 1);
    assert log[..j + 1][..j] == log[..j];
    var i := LastNoticeAt(log[..j], log[j].payload.event);
    assert Answers(log, i, j);
  }

  predicate Answers(log: seq<Entry>, i: nat, j: nat)
    requires i < j < |log|
  {
    && log[i].Announced? && log[j].Announced?
    && log[i].payload.status == Open
    && (log[i].payload.event, log[i].payload.ref) == (log[j].payload.event, log[j].payload.ref)
    && forall k | i < k < j && log[k].Announced? ::
         log[k].payload.event == log[j].payload.event ==> log[k].payload.status == Notification
  }

  lemma {:induction false} PairedPrefix(log: seq<Entry>, k: nat)
    requires Paired(log) && k <= |log|
    ensures Paired(log[..k])
    decreases |log|
  {
    if k < |log| {
      PairedPrefix(log[..|log| - 1], k);
      assert log[..|log| - 1][..k] == log[..k];
    } else {
      assert log[..k] == log;
    }
  }

  lemma {:induction false} LastNoticeAt(log: seq<Entry>, event: string) returns (i: nat)
    requires LastNotice(log, event).Some?
    ensures i < |log| && log[i].Announced? && log[i].payload == LastNotice(log, event).value
    ensures log[i].payload.event == event
    ensures forall k | i < k < |log| && log[k].Announced? ::
              log[k].payload.event == event ==> log[k].payload.status == Notification
  {
    i := |log| - 1;
    if !(log[i].Announced? && log[i].payload.event == event && log[i].payload.status != Notification) {
      i := LastNoticeAt(log[..|log| - 1], event);
    }
  }
}
