/** alert-event.py: durable incidents and the notification outbox.

    Commands run one at a time under the lock.  Every change of a file is one
    atomic step (a rename or an unlink), every delivery is one call, and the
    process may die before any of them.  `troubles` counts the deaths and the files
    that could not be read. */
module AlertStore {
  import opened Common
  import opened AlertLog

  /** Which steps the process does not live to see, which files cannot be read, and
      whether there may be any of either. */
  datatype Fate = Fate(kills: nat -> bool, garbles: nat -> bool, ghost calm: bool)

  type Host = h: Fate | h.calm ==> forall n: nat :: !h.kills(n) && !h.garbles(n)
    witness Fate(n => false, n => false, true)

  class Store {
    const host: Host
    var incidents: map<string, Incident>
    var outbox: map<Name, Record>
    var nextRef: Ref
    var clock: nat
    ghost var log: seq<Entry>
    ghost var troubles: Troubles

    ghost predicate Valid()
      reads this
    {
      Sound(incidents, outbox, log, nextRef, troubles)
    }

    /** What is on disk. */
    function Files(): Disk
      reads this
    {
      Disk(incidents, outbox, nextRef)
    }

    /** Nothing went wrong, if nothing could; and only a death ends a command early. */
    ghost predicate Fared(was: Troubles, life: Life)
      reads this
    {
      && was.Within(troubles)
      && (host.calm ==> life.Alive? && troubles == was)
      && (life.Died? ==> was.deaths < troubles.deaths)
    }

    constructor (host: Host)
      ensures Valid() && incidents == map[] && outbox == map[] && nextRef == 0
      ensures log == [] && troubles == Troubles(0, 0) && this.host == host && clock == 0
    {
      this.host := host;
      incidents := map[];
      outbox := map[];
      nextRef := 0;
      clock := 0;
      log := [];
      troubles := Troubles(0, 0);
    }

    // ---------------------------------------------------------------- effects

    /** The process may die here. */
    method Survive() returns (life: Life)
      modifies this`clock, this`troubles
      ensures life.Died? ==> troubles == old(troubles).Death()
      ensures life.Alive? ==> troubles == old(troubles)
      ensures host.calm ==> life.Alive?
    {
      var dies := host.kills(clock);
      clock := clock + 1;
      if dies {
        troubles := troubles.Death();
        return Died;
      }
      return Alive;
    }

    /** The same between two changes of files, where everything is in order. */
    method SurviveHere() returns (life: Life)
      requires Valid()
      modifies this`clock, this`troubles
      ensures Valid() && Fared(old(troubles), life)
      ensures life.Died? ==> troubles == old(troubles).Death()
      ensures life.Alive? ==> troubles == old(troubles)
    {
      life := Survive();
      MoreTroubles(incidents, log, old(troubles), troubles);
    }

    /** read_json: None when the file is missing or cannot be read. */
    method ReadRecord(n: Name) returns (r: Option<Record>)
      requires Valid()
      modifies this`clock, this`troubles
      ensures Valid() && Fared(old(troubles), Alive)
      ensures r.Some? ==> n in outbox && r.value == outbox[n] && troubles == old(troubles)
      ensures r.None? && n in outbox ==> troubles == old(troubles).Misread()
      ensures n !in outbox ==> troubles == old(troubles)
    {
      if n !in outbox {
        return None;
      }
      var garbled := host.garbles(clock);
      clock := clock + 1;
      if garbled {
        MoreTroubles(incidents, log, troubles, troubles.Misread());
        troubles := troubles.Misread();
        return None;
      }
      return Some(outbox[n]);
    }

    method ReadIncident(event: string) returns (r: Option<Incident>)
      requires Valid()
      modifies this`clock, this`troubles
      ensures Valid() && Fared(old(troubles), Alive)
      ensures r.Some? ==> event in incidents && r.value == incidents[event] && troubles == old(troubles)
      ensures r.None? && event in incidents ==> troubles == old(troubles).Misread()
      ensures event !in incidents ==> troubles == old(troubles)
    {
      if event !in incidents {
        return None;
      }
      var garbled := host.garbles(clock);
      clock := clock + 1;
      if garbled {
        MoreTroubles(incidents, log, troubles, troubles.Misread());
        troubles := troubles.Misread();
        return None;
      }
      return Some(incidents[event]);
    }

    // ----------------------------------------------------------------- outbox

    /** One channel's turn: called only when its flag is set and its time has come;
        `accepted` is the answer if it is called, and changes only its own counters. */
    method TryChannel(n: Name, r: Record, c: Channel, now: real, accepted: bool)
      returns (life: Life, after: Record, ok: bool, sent: Option<bool>)
      modifies this`clock, this`log, this`troubles
      ensures life.Alive? ==> troubles == old(troubles)
      ensures life.Died? ==> troubles == old(troubles).Death() && sent.None?
      ensures host.calm ==> life.Alive?
      ensures log == (if sent.Some? then old(log) + [Tried(n, c, now, sent.value)] else old(log))
      ensures life.Alive? ==>
                && sent == (if r.Get(c).pending && r.Get(c).next <= now then Some(accepted) else None)
                && after == r.Set(c, ChannelAfter(r.Get(c), now, sent))
                && (ok <==> !after.Get(c).pending)
    {
      after, ok, sent := r, true, None;
      var s := r.Get(c);
      if !s.pending {
        return Alive, after, true, None;
      }
      if now < s.next {
        return Alive, after, false, None;
      }
      :- Survive();
      log := log + [Tried(n, c, now, accepted)];
      sent := Some(accepted);
      if accepted {
        after := r.Set(c, s.(pending := false));
      } else {
        var attempts := s.attempts + 1;
        after := r.Set(c, s.(attempts := attempts, next := now + Delay(attempts) as real));
        ok := false;
      }
      return Alive, after, ok, sent;
    }

    /** The loop of attempt_outbox: email, then webhook, neither held up by the other. */
    method TryChannels(n: Name, original: Record, round: Round)
      returns (life: Life, record: Record, allOk: bool, ghost email: Option<bool>, ghost webhook: Option<bool>)
      modifies this`clock, this`log, this`troubles
      ensures life.Alive? ==> troubles == old(troubles)
      ensures life.Died? ==> troubles == old(troubles).Death()
      ensures host.calm ==> life.Alive?
      ensures log == old(log) + Tries(n, round.clock(n), email, webhook)
      ensures life.Alive? ==>
                && email == Answer(original.email, n, Email, round)
                && webhook == Answer(original.webhook, n, Webhook, round)
                && record == Attempted(original, n, round)
                && (allOk <==> Served(record))
    {
      record, allOk, email, webhook := original, true, None, None;
      var now := round.clock(n);
      for turn := 0 to 2
        invariant troubles == old(troubles)
        invariant log == old(log) + Tries(n, now, email, webhook)
        invariant record == RecordAfter(original, now, email, webhook)
        invariant email == if turn >= 1 then Answer(original.email, n, Email, round) else None
        invariant webhook == if turn >= 2 then Answer(original.webhook, n, Webhook, round) else None
        invariant allOk <==> (turn >= 1 ==> !record.email.pending) && (turn >= 2 ==> !record.webhook.pending)
      {
        var c := if turn == 0 then Email else Webhook;
        var on, after, ok, sent := TryChannel(n, record, c, now, round.accepts(n, c));
        if on.Died? {
          return Died, record, false, email, webhook;
        }
        record := after;
        if c == Email {
          email := sent;
        } else {
          webhook := sent;
        }
        allOk := allOk && ok;
      }
      return Alive, record, allOk, email, webhook;
    }

    /** The file after its attempts: rewritten, removed, or left when the process dies. */
    method WriteBack(n: Name, record: Record, ghost before: seq<Entry>, ghost now: real,
                     ghost email: Option<bool>, ghost webhook: Option<bool>) returns (life: Life)
      requires n in outbox && log == before + Tries(n, now, email, webhook)
      requires record == RecordAfter(outbox[n], now, email, webhook)
      requires Sound(incidents, outbox, before, nextRef, troubles)
      requires TurnTaken(outbox[n].email, now, email) && TurnTaken(outbox[n].webhook, now, webhook)
      modifies this`clock, this`outbox, this`troubles
      ensures Valid() && Fared(old(troubles), life)
      ensures life.Died? ==> outbox == old(outbox)
      ensures life.Alive? ==>
                && troubles == old(troubles)
                && outbox == if Served(record) then old(outbox) - {n} else old(outbox)[n := record]
    {
      life := Survive();
      AttemptKeepsSound(incidents, outbox, before, nextRef, old(troubles), troubles, n, now, email, webhook);
      if life.Alive? {
        if record.email.pending || record.webhook.pending {
          outbox := outbox[n := record];
        } else {
          outbox := outbox - {n};
        }
      }
    }

    /** attempt_outbox, on a file that was read. */
    method AttemptRead(n: Name, round: Round)
      returns (life: Life, ok: bool, ghost email: Option<bool>, ghost webhook: Option<bool>)
      requires Valid() && n in outbox
      modifies this`clock, this`outbox, this`log, this`troubles
      ensures Valid() && Fared(old(troubles), life)
      ensures log == old(log) + Tries(n, round.clock(n), email, webhook)
      ensures life.Died? ==> outbox == old(outbox)
      ensures life.Alive? ==>
                && email == Answer(old(outbox)[n].email, n, Email, round)
                && webhook == Answer(old(outbox)[n].webhook, n, Webhook, round)
                && outbox == Keep(old(outbox), n, Attempted(old(outbox)[n], n, round))
                && (ok <==> n !in outbox)
    {
      ghost var before, calm := log, troubles;
      var record: Record;
      life, record, ok, email, webhook := TryChannels(n, outbox[n], round);
      if life.Died? {
        AttemptKeepsSound(incidents, outbox, before, nextRef, calm, troubles, n, round.clock(n), email, webhook);
        return Died, false, email, webhook;
      }
      life := WriteBack(n, record, before, round.clock(n), email, webhook);
    }

    /** attempt_outbox: each due channel once, then rewrite or remove the file. */
    method AttemptOutbox(n: Name, round: Round) returns (life: Life, allOk: bool)
      requires Valid() && n in outbox
      modifies this`clock, this`outbox, this`log, this`troubles
      ensures Valid() && Fared(old(troubles), life)
      ensures TriesSince(old(log), log) && SameButFor(old(outbox), outbox, n)
      ensures troubles.Calm() ==>
                && log == old(log) + TurnTries(old(outbox)[n], n, round)
                && outbox == Keep(old(outbox), n, Attempted(old(outbox)[n], n, round))
                && (allOk <==> n !in outbox)
    {
      var read := ReadRecord(n);
      if read.None? {
        return Alive, true;
      }
      ghost var email, webhook;
      ghost var r := Attempted(outbox[n], n, round);
      life, allOk, email, webhook := AttemptRead(n, round);
      AttemptIsOneFile(old(outbox), old(log), n, r, round.clock(n), email, webhook);
    }

    /** One file's turn within retry_outbox; `left` are the files still to come. */
    method RetryOne(n: Name, okSoFar: bool, round: Round, ghost before: map<Name, Record>, ghost left: set<Name>,
                    ghost start: seq<Entry>) returns (life: Life, ok: bool)
      requires Valid() && n in left && left <= before.Keys && StillAsRead(before, outbox, left)
      requires TriesSince(start, log)
      requires troubles.Calm() ==> HalfRetried(before, outbox, round, left, log[|start|..], okSoFar)
      modifies this`clock, this`outbox, this`log, this`troubles
      ensures Valid() && Fared(old(troubles), life)
      ensures TriesSince(start, log) && StillAsRead(before, outbox, left - {n})
      ensures troubles.Calm() ==> HalfRetried(before, outbox, round, left - {n}, log[|start|..], ok)
    {
      var done;
      life, done := AttemptOutbox(n, round);
      ok := done && okSoFar;
      TriesAdd(start, old(log), log);
      OneFewerLeft(before, old(outbox), outbox, left, n);
      if troubles.Calm() {
        OneMoreHalf(before, old(outbox), round, left, start, old(log), okSoFar, n);
      }
    }

    /** retry_outbox: every file gets its turn, whatever became of the others. */
    method RetryOutbox(round: Round) returns (life: Life, ok: bool)
      requires Valid()
      modifies this`clock, this`outbox, this`log, this`troubles
      ensures Valid() && Fared(old(troubles), life) && TriesSince(old(log), log)
      ensures troubles.Calm() ==>
                && outbox == Retried(old(outbox), round) && (ok <==> outbox == map[])
                && AllTriedOnce(old(outbox), round, {}, log[|old(log)|..])
    {
      ok := true;
      var left := outbox.Keys;
      assert outbox == PartlyRetried(outbox, round, left) && log[|log|..] == [];
      while left != {}
        invariant Valid() && Fared(old(troubles), Alive)
        invariant TriesSince(old(log), log) && left <= old(outbox).Keys && StillAsRead(old(outbox), outbox, left)
        invariant troubles.Calm() ==> HalfRetried(old(outbox), outbox, round, left, log[|old(log)|..], ok)
        decreases left
      {
        var n :| n in left;
        var on;
        on, ok := RetryOne(n, ok, round, old(outbox), left, old(log));
        if on.Died? {
          return Died, false;
        }
        left := left - {n};
      }
      return Alive, ok;
    }

    /** The notice is new, and once announced the record will be in order. */
    ghost predicate MayAnnounce(p: Payload, e: Entry)
      reads this
    {
      && Ready(incidents, outbox, log, nextRef, troubles, p, e)
      && (troubles.Calm() ==> InOrderWith(incidents, outbox, log, e))
    }

    /** The process dies before it can queue the notice. */
    ghost method DieBeforeQueue(p: Payload, e: Entry)
      requires MayAnnounce(p, e)
      modifies this`log, this`troubles
      ensures Valid() && troubles == old(troubles).Death() && log == old(log) + [Lost(p, old(troubles).deaths)]
    {
      var lost := Lost(p, troubles.deaths);
      AsideLasts(incidents, outbox, log, nextRef, lost);
      troubles, log := troubles.Death(), log + [lost];
    }

    /** queue_notification: one file, due at once, or none when no channel is on. */
    method QueueNotification(p: Payload, c: Command) returns (life: Life, queued: Option<Name>)
      requires MayAnnounce(p, NoticeOf(p, c))
      modifies this`clock, this`outbox, this`log, this`troubles
      ensures Valid() && Fared(old(troubles), life)
      ensures life.Died? <==> host.kills(old(clock))
      ensures life.Died? ==>
                && troubles == old(troubles).Death() && outbox == old(outbox)
                && log == old(log) + [Lost(p, old(troubles).deaths)]
      ensures life.Alive? ==>
                && troubles == old(troubles)
                && log == old(log) + [NoticeOf(p, c)]
                && queued == (if c.emailOn || c.webhookOn then Some(NameOf(p, c.now)) else None)
                && outbox == (if queued.None? then old(outbox)
                              else old(outbox)[NameOf(p, c.now) :=
                                     Record(p, ChannelState(c.emailOn, 0, 0.0), ChannelState(c.webhookOn, 0, 0.0))])
                && NameOf(p, c.now) !in old(outbox)
    {
      var dies := host.kills(clock);
      clock := clock + 1;
      if dies {
        DieBeforeQueue(p, NoticeOf(p, c));
        return Died, None;
      }
      var n := NameOf(p, c.now);
      NewName(incidents, log, nextRef, p, c.now);
      QueueConserves(outbox, log, n, p, c.emailOn, c.webhookOn);
      if troubles.Calm() {
        QueueKeepsTimes(outbox, log, n, p, c.emailOn, c.webhookOn);
      }
      log := log + [NoticeOf(p, c)];
      if !c.emailOn && !c.webhookOn {
        return Alive, None;
      }
      outbox := outbox[n := Record(p, ChannelState(c.emailOn, 0, 0.0), ChannelState(c.webhookOn, 0, 0.0))];
      return Alive, Some(n);
    }

    /** Queue one notification and give it its first try; `okSoFar` and `ok` become
        the exit status. */
    method Announce(p: Payload, c: Command, okSoFar: bool) returns (life: Life, ok: bool)
      requires MayAnnounce(p, NoticeOf(p, c))
      requires troubles.Calm() ==> (okSoFar <==> outbox == map[])
      modifies this`clock, this`outbox, this`log, this`troubles
      ensures Valid() && Fared(old(troubles), life) && old(log) <= log
      ensures troubles.Calm() ==>
                && log == old(log) + ([NoticeOf(p, c)] + FirstTries(p, c))
                && outbox == Sent(old(outbox), p, c)
                && (ok <==> outbox == map[])
    {
      var on, queued := QueueNotification(p, c);
      if on.Died? {
        return Died, false;
      }
      FirstTurn(p, c, old(outbox));
      Regroup(old(log), [NoticeOf(p, c)], FirstTries(p, c));
      if queued.None? {
        return Alive, okSoFar;
      }
      life, ok := AttemptOutbox(queued.value, c.round);
      ok := ok && okSoFar;
    }

    // --------------------------------------------------------------- commands

    /** An incident file that could not be read is about to be written over; `before`
        are the troubles before that. */
    ghost method SetAside(event: string, before: Troubles)
      requires Lasting(incidents, outbox, log, nextRef) && Explained(incidents, log, before) && !troubles.Calm()
      requires event in incidents && before.Misread().Within(troubles)
      modifies this`log
      ensures Valid() && old(log) <= log
      ensures Dropped(log, incidents[event].ref)
    {
      OverwriteLasts(incidents, outbox, log, nextRef, before, troubles, event);
      log := log + [Overwritten(event, incidents[event].ref, before.misreads)];
    }

    /** The new incident file, and the notice it calls for. */
    method FileIncident(c: Command) returns (p: Payload)
      requires Valid()
      requires c.event in incidents ==> !troubles.Calm() && Dropped(log, incidents[c.event].ref)
      modifies this`incidents, this`nextRef, this`log
      ensures p == Payload(c.event, old(nextRef), Open, 1)
      ensures incidents == old(incidents)[c.event := Incident(old(nextRef), 1)] && nextRef == old(nextRef) + 1
      ensures log == old(log) + [OpenCommand(c.event)]
      ensures MayAnnounce(p, NoticeOf(p, c))
    {
      p := Payload(c.event, nextRef, Open, 1);
      OpeningReady(incidents, outbox, log, nextRef, troubles, c.event, NoticeOf(p, c));
      if troubles.Calm() {
        OpeningInOrder(incidents, outbox, log, c.event, nextRef, NameOf(p, c.now), c.emailOn, c.webhookOn);
      }
      incidents := incidents[c.event := Incident(nextRef, 1)];
      nextRef := nextRef + 1;
      log := log + [OpenCommand(c.event)];
    }

    /** open, when there is no readable incident: a new reference, then its notice. */
    method OpenAnew(c: Command, okSoFar: bool) returns (life: Life, ok: bool)
      requires Valid()
      requires c.event in incidents ==> !troubles.Calm() && Dropped(log, incidents[c.event].ref)
      requires troubles.Calm() ==> (okSoFar <==> outbox == map[])
      modifies this
      ensures Valid() && Fared(old(troubles), life) && old(log) <= log
      ensures incidents == old(incidents)[c.event := Incident(old(nextRef), 1)] && nextRef == old(nextRef) + 1
      ensures troubles.Calm() ==>
                var p := Payload(c.event, old(nextRef), Open, 1);
                && log == old(log) + ([OpenCommand(c.event)] + [NoticeOf(p, c)] + FirstTries(p, c))
                && outbox == Sent(old(outbox), p, c)
                && (ok <==> outbox == map[])
    {
      var p := FileIncident(c);
      life, ok := Announce(p, c, okSoFar);
      Regroup(old(log), [OpenCommand(c.event)], [NoticeOf(p, c)] + FirstTries(p, c));
      Regroup([OpenCommand(c.event)], [NoticeOf(p, c)], FirstTries(p, c));
    }

    /** The same, over an incident file that is there but could not be read. */
    method OpenOver(c: Command, okSoFar: bool, ghost before: Troubles) returns (life: Life, ok: bool)
      requires Valid() && c.verb == Open
      requires c.event in incidents ==> Explained(incidents, log, before) && before.Misread().Within(troubles)
      requires troubles.Calm() ==> (okSoFar <==> outbox == map[])
      modifies this
      ensures Valid() && Fared(old(troubles), life) && old(log) <= log
      ensures troubles.Calm() ==> c.event !in old(incidents) && Done(old(Files()), c, old(log), ok)
    {
      if c.event in incidents {
        SetAside(c.event, before);
      }
      life, ok := OpenAnew(c, okSoFar);
    }

    /** open, when the incident is open already: counted, and not announced. */
    method CountAgain(c: Command, incident: Incident, ghost ok: bool)
      requires Valid() && c.verb == Open
      requires c.event in incidents && incidents[c.event] == incident
      requires troubles.Calm() ==> (ok <==> outbox == map[])
      modifies this`incidents, this`log
      ensures Valid()
      ensures incidents == old(incidents)[c.event := Incident(incident.ref, incident.count + 1)]
      ensures log == old(log) + [OpenCommand(c.event)]
      ensures troubles.Calm() ==> Done(old(Files()), c, old(log), ok)
    {
      RepeatLasts(incidents, outbox, log, nextRef, troubles, c.event);
      assert incident.(count := incident.count + 1) == Incident(incident.ref, incident.count + 1);
      incidents := incidents[c.event := Incident(incident.ref, incident.count + 1)];
      log := log + [OpenCommand(c.event)];
    }

    /** Read the incident before writing it. */
    method LookUp(event: string) returns (life: Life, r: Option<Incident>)
      requires Valid()
      modifies this`clock, this`troubles
      ensures Valid() && Fared(old(troubles), life)
      ensures r.Some? ==> event in incidents && r.value == incidents[event]
      ensures r.None? && event in incidents ==>
                Explained(incidents, log, old(troubles)) && old(troubles).Misread().Within(troubles)
    {
      r := ReadIncident(event);
      life := SurviveHere();
    }

    /** Each command once the outbox was retried: what it leaves, if all went well. */
    ghost predicate Done(d: Disk, c: Command, before: seq<Entry>, ok: bool)
      reads this
    {
      && Files() == AfterRetry(d, c) && log == before + Recorded(d, c) && (ok <==> outbox == map[])
    }

    /** open, once the outbox was retried. */
    method OpenRetried(c: Command, okSoFar: bool) returns (life: Life, ok: bool)
      requires Valid() && c.verb == Open
      requires troubles.Calm() ==> (okSoFar <==> outbox == map[])
      modifies this
      ensures Valid() && Fared(old(troubles), life) && old(log) <= log
      ensures troubles.Calm() ==> Done(old(Files()), c, old(log), ok)
    {
      ghost var before := troubles;
      var read;
      life, read := LookUp(c.event);
      ok := okSoFar;
      if life.Alive? {
        if read.Some? {
          CountAgain(c, read.value, ok);
        } else {
          life, ok := OpenOver(c, okSoFar, before);
        }
      }
    }

    /** The incident file removed, and the notice it calls for. */
    method RemoveIncident(c: Command, incident: Incident) returns (p: Payload)
      requires Valid() && c.event in incidents && incidents[c.event] == incident
      modifies this`incidents
      ensures p == Payload(c.event, incident.ref, Recovered, incident.count)
      ensures incidents == old(incidents) - {c.event}
      ensures MayAnnounce(p, NoticeOf(p, c))
    {
      p := Payload(c.event, incident.ref, Recovered, incident.count);
      RecoveryReady(incidents, outbox, log, nextRef, troubles, c.event, NoticeOf(p, c));
      if troubles.Calm() {
        RecoveryInOrder(incidents, outbox, log, c.event, NameOf(p, c.now), c.emailOn, c.webhookOn);
      }
      incidents := incidents - {c.event};
    }

    /** recover, when the incident can be read. */
    method Close(c: Command, incident: Incident, okSoFar: bool) returns (life: Life, ok: bool)
      requires Valid() && c.verb == Recovered
      requires c.event in incidents && incidents[c.event] == incident
      requires troubles.Calm() ==> (okSoFar <==> outbox == map[])
      modifies this
      ensures Valid() && Fared(old(troubles), life) && old(log) <= log
      ensures life.Died? && c.event in incidents ==> Files() == old(Files()) && log == old(log)
      ensures troubles.Calm() ==> Done(old(Files()), c, old(log), ok)
    {
      ok := okSoFar;
      :- SurviveHere();
      var p := RemoveIncident(c, incident);
      life, ok := Announce(p, c, ok);
    }

    /** recover, once the outbox was retried: the incident file is removed first, then
        the recovery announced. */
    method RecoverRetried(c: Command, okSoFar: bool) returns (life: Life, ok: bool)
      requires Valid() && c.verb == Recovered
      requires troubles.Calm() ==> (okSoFar <==> outbox == map[])
      modifies this
      ensures Valid() && Fared(old(troubles), life) && old(log) <= log
      ensures troubles.Calm() ==> Done(old(Files()), c, old(log), ok)
    {
      var read := ReadIncident(c.event);
      if read.None? {
        assert log == log + [];
        return Alive, okSoFar;
      }
      life, ok := Close(c, read.value, okSoFar);
    }

    /** A notice with a reference of its own, after a look at the incident. */
    method DealNotice(c: Command) returns (p: Payload)
      requires Valid()
      modifies this`clock, this`troubles, this`nextRef
      ensures Fared(old(troubles), Alive)
      ensures p == Payload(c.event, old(nextRef), Notification, 1) && nextRef == old(nextRef) + 1
      ensures MayAnnounce(p, NoticeOf(p, c))
    {
      var ignored := ReadIncident(c.event);
      p := Payload(c.event, nextRef, Notification, 1);
      NotificationReady(incidents, outbox, log, nextRef, troubles, NoticeOf(p, c));
      if troubles.Calm() {
        NoticeInOrder(incidents, outbox, log, c.event, nextRef, NameOf(p, c.now), c.emailOn, c.webhookOn);
      }
      nextRef := nextRef + 1;
    }

    /** notify, once the outbox was retried: one notification with a reference of its
        own, and no incident. */
    method NotifyRetried(c: Command, okSoFar: bool) returns (life: Life, ok: bool)
      requires Valid() && c.verb == Notification
      requires troubles.Calm() ==> (okSoFar <==> outbox == map[])
      modifies this
      ensures Valid() && Fared(old(troubles), life) && old(log) <= log && incidents == old(incidents)
      ensures troubles.Calm() ==> Done(old(Files()), c, old(log), ok)
    {
      var p := DealNotice(c);
      life, ok := Announce(p, c, okSoFar);
    }

    /** A command once the outbox was retried. */
    method ObeyRetried(c: Command, okSoFar: bool) returns (life: Life, ok: bool)
      requires Valid()
      requires troubles.Calm() ==> (okSoFar <==> outbox == map[])
      modifies this
      ensures Valid() && Fared(old(troubles), life) && old(log) <= log
      ensures troubles.Calm() ==> Done(old(Files()), c, old(log), ok)
    {
      match c.verb {
        case Open => life, ok := OpenRetried(c, okSoFar);
        case Recovered => life, ok := RecoverRetried(c, okSoFar);
        case Notification => life, ok := NotifyRetried(c, okSoFar);
      }
    }

    /** One whole command. */
    method Obey(c: Command) returns (life: Life, ok: bool, ghost tries: seq<Entry>)
      requires Valid()
      modifies this
      ensures Valid() && Fared(old(troubles), life) && old(log) <= log
      ensures troubles.Calm() ==> Files() == Obeyed(old(Files()), c) && (ok <==> outbox == map[])
      ensures troubles.Calm() ==> RecordedFrom(old(Files()), c, tries, old(log), log)
    {
      life, ok := RetryOutbox(c.round);
      tries := log[|old(log)|..];
      Rejoin(old(log), log);
      if life.Alive? {
        life, ok := ObeyRetried(c, ok);
      }
      RetriedFirst(old(Files()), c);
    }

    /** Any number of commands, dying wherever they like. */
    method Serve(commands: seq<Command>)
      requires Valid()
      modifies this
      ensures Valid() && Fared(old(troubles), Alive) && old(log) <= log
      ensures troubles.Calm() ==> Files() == ObeyedAll(old(Files()), commands)
    {
      for i := 0 to |commands|
        invariant Valid() && Fared(old(troubles), Alive) && old(log) <= log
        invariant troubles.Calm() ==> Files() == ObeyedAll(old(Files()), commands[..i])
      {
        ghost var earlier := log;
        assert commands[..i + 1][..i] == commands[..i];
        ghost var tries;
        var life, ok;
        life, ok, tries := Obey(commands[i]);
        assert old(log) <= earlier <= log;
      }
      assert commands[..|commands|] == commands;
    }
  }

  /** A first open command that dies between the incident file and its notice. */
  method DiedBeforeNotice(c: Command, host: Host) returns (s: Store, ghost p: Payload)
    requires c.verb == Open && host.kills(0)
    ensures fresh(s) && s.Valid() && s.troubles == Troubles(1, 0)
    ensures s.incidents == map[c.event := Incident(0, 1)] && s.outbox == map[]
    ensures p == Payload(c.event, 0, Open, 1) && s.log == [] + [OpenCommand(c.event)] + [Lost(p, 0)]
  {
    s := new Store(host);
    var notice := s.FileIncident(c);
    p := notice;
    var life, queued := s.QueueNotification(notice, c);
  }

  /** A run that never tells anyone: after that death the next open command finds the
      incident open and announces nothing. */
  method OpenedInSilence(c: Command, host: Host) returns (s: Store)
    requires c.verb == Open && host.kills(0)
    ensures fresh(s) && s.Valid() && s.troubles == Troubles(1, 0)
    ensures s.incidents == map[c.event := Incident(0, 2)] && s.outbox == map[]
    ensures LostFor(s.log, 0, Open) && !AnnouncedFor(s.log, 0, Open)
  {
    ghost var p;
    s, p := DiedBeforeNotice(c, host);
    s.CountAgain(c, Incident(0, 1), false);
    SilentRecord(p, 0);
  }
}
