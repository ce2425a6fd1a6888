/** What every session keeps, for every sequence of bytes a client can send. */
module SmtpSafety {
  import opened Common
  import opened Thumbprint
  import opened SmtpSession

  // ------------------------------------------------------------ reading the past

  /** The outcome of the last AUTH. */
  function LastLogin(past: seq<Event>): Option<string> {
    if past == [] then None
    else
      var n := |past| - 1;
      if past[n].Login? then past[n].user else LastLogin(past[..n])
  }

  /** The recipients given, in order. */
  function RcptPaths(es: seq<Event>): seq<string> {
    if es == [] then []
    else
      var n := |es| - 1;
      RcptPaths(es[..n]) + if es[n].Rcpt? then [es[n].path] else []
  }

  /** No command that starts or ends an envelope. */
  predicate SameEnvelope(es: seq<Event>) {
    forall k | 0 <= k < |es| :: !es[k].Mail? && !es[k].Sent? && !es[k].Cleared?
  }

  /** The open envelope is that of the MAIL at m and the RCPTs since. */
  predicate EnvelopeFrom(past: seq<Event>, m: nat, sender: string, recipients: seq<string>) {
    && m < |past| && past[m] == Mail(sender)
    && SameEnvelope(past[m + 1..]) && recipients == RcptPaths(past[m + 1..])
  }

  /** An AUTH that names its user, by XOAUTH2 and with a token the options let through. */
  predicate AcceptedLogin(conf: Config, e: Event) {
    && e.Login? && e.user.Some? && Upper(e.mechanism) == "XOAUTH2"
    && e.presented.Some? && e.presented.value.user == e.user.value
    && conf.allowed(e.presented.value.token) && !conf.rejectAuth
  }

  /** Before m there was STARTTLS, and after that an AUTH that was accepted. */
  predicate Admitted(conf: Config, past: seq<Event>, m: nat) {
    exists t: nat, a: nat | t < a < |past| && a < m :: past[t] == Secured && AcceptedLogin(conf, past[a])
  }

  /** A recorded message: sent over TLS, in the envelope of the last MAIL and the
      RCPTs since, after an accepted AUTH; its user is the outcome of the last AUTH. */
  predicate ProperlySent(conf: Config, past: seq<Event>, r: Record, m: nat, d: nat) {
    && m < d < |past| && past[d] == Sent(r.content)
    && r.tls && r.sender.Some? && r.recipients != []
    && EnvelopeFrom(past[..d], m, r.sender.value, r.recipients)
    && Admitted(conf, past, m)
    && r.user == LastLogin(past[..d])
  }

  ghost predicate RecordOk(conf: Config, past: seq<Event>, r: Record) {
    exists m: nat, d: nat :: ProperlySent(conf, past, r, m, d)
  }

  ghost predicate OpenOk(conf: Config, past: seq<Event>, sender: Option<string>, recipients: seq<string>) {
    match sender
    case None => recipients == []
    case Some(path) => exists m: nat :: EnvelopeFrom(past, m, path, recipients) && Admitted(conf, past, m)
  }

  ghost predicate Good(conf: Config, s: State) {
    && (s.tls <==> Secured in s.past)
    && (!s.tls ==> s.user.None? && s.sender.None? && s.recipients == [])
    && s.user == LastLogin(s.past)
    && (s.user.Some? ==> Admitted(conf, s.past, |s.past|))
    && OpenOk(conf, s.past, s.sender, s.recipients)
    && (forall k | 0 <= k < |s.records| :: RecordOk(conf, s.past, s.records[k]))
  }

  // ------------------------------------------------------- one more event at a time

  lemma AdmittedLonger(conf: Config, past: seq<Event>, e: Event, m: nat)
    requires Admitted(conf, past, m)
    ensures Admitted(conf, past + [e], m)
  {
    var t: nat, a: nat :| t < a < |past| && a < m && past[t] == Secured && AcceptedLogin(conf, past[a]);
    assert (past + [e])[t] == Secured && AcceptedLogin(conf, (past + [e])[a]);
  }

  lemma RecordsLonger(conf: Config, past: seq<Event>, e: Event, r: Record)
    requires RecordOk(conf, past, r)
    ensures RecordOk(conf, past + [e], r)
  {
    var m: nat, d: nat :| ProperlySent(conf, past, r, m, d);
    AdmittedLonger(conf, past, e, m);
    assert (past + [e])[..d] == past[..d];
    assert ProperlySent(conf, past + [e], r, m, d);
  }

  lemma AllRecordsLonger(conf: Config, past: seq<Event>, e: Event, records: seq<Record>)
    requires forall k | 0 <= k < |records| :: RecordOk(conf, past, records[k])
    ensures forall k | 0 <= k < |records| :: RecordOk(conf, past + [e], records[k])
  {
    forall k | 0 <= k < |records| ensures RecordOk(conf, past + [e], records[k]) {
      RecordsLonger(conf, past, e, records[k]);
    }
  }

  lemma OneMoreRecord(conf: Config, past: seq<Event>, e: Event, records: seq<Record>, r: Record)
    requires RecordOk(conf, past + [e], r) && forall k | 0 <= k < |records| :: RecordOk(conf, past, records[k])
    ensures forall k | 0 <= k <= |records| :: RecordOk(conf, past + [e], (records + [r])[k])
  {
    AllRecordsLonger(conf, past, e, records);
  }

  /** An event that touches no envelope leaves the open one; a RCPT extends it. */
  lemma OpenLonger(conf: Config, past: seq<Event>, e: Event, sender: Option<string>, recipients: seq<string>)
    requires OpenOk(conf, past, sender, recipients) && !e.Mail? && !e.Sent? && !e.Cleared?
    requires e.Rcpt? ==> sender.Some?
    ensures OpenOk(conf, past + [e], sender, recipients + if e.Rcpt? then [e.path] else [])
  {
    if sender.Some? {
      var m: nat :| EnvelopeFrom(past, m, sender.value, recipients) && Admitted(conf, past, m);
      AdmittedLonger(conf, past, e, m);
      var since := past[m + 1..];
      assert (past + [e])[m + 1..] == since + [e];
      assert (since + [e])[..|since|] == since;
      assert EnvelopeFrom(past + [e], m, sender.value, recipients + if e.Rcpt? then [e.path] else []);
    }
  }

  lemma OpenedByMail(conf: Config, past: seq<Event>, path: string)
    requires Admitted(conf, past, |past|)
    ensures OpenOk(conf, past + [Mail(path)], Some(path), [])
  {
    AdmittedLonger(conf, past, Mail(path), |past|);
    assert (past + [Mail(path)])[|past| + 1..] == [];
    assert EnvelopeFrom(past + [Mail(path)], |past|, path, []);
  }

  lemma SentIsProper(conf: Config, past: seq<Event>, r: Record)
    requires r.tls && r.sender.Some? && r.recipients != [] && OpenOk(conf, past, r.sender, r.recipients)
    requires r.user == LastLogin(past)
    ensures RecordOk(conf, past + [Sent(r.content)], r)
  {
    var m: nat :| EnvelopeFrom(past, m, r.sender.value, r.recipients) && Admitted(conf, past, m);
    AdmittedLonger(conf, past, Sent(r.content), m);
    assert (past + [Sent(r.content)])[..|past|] == past;
    assert ProperlySent(conf, past + [Sent(r.content)], r, m, |past|);
  }

  lemma LoginAdmits(conf: Config, past: seq<Event>, e: Event)
    requires Secured in past && AcceptedLogin(conf, e)
    ensures Admitted(conf, past + [e], |past| + 1)
  {
    var t :| 0 <= t < |past| && past[t] == Secured;
    var longer := past + [e];
    assert longer[t] == Secured && AcceptedLogin(conf, longer[|past|]);
  }

  // ------------------------------------------------------------------ the turns

  lemma NotedKeepsGood(conf: Config, s: State, e: Event, t: State)
    requires Good(conf, s) && !e.Mail? && !e.Sent? && !e.Cleared? && !e.Rcpt? && !e.Login?
    requires t == Note(s, e).(tls := t.tls, replies := t.replies) && (t.tls <==> s.tls || e == Secured)
    ensures Good(conf, t)
  {
    OpenLonger(conf, s.past, e, s.sender, s.recipients);
    AllRecordsLonger(conf, s.past, e, s.records);
    assert t.past[..|s.past|] == s.past && t.past[|s.past|] == e;
    assert s.recipients + [] == s.recipients;
    if s.user.Some? {
      AdmittedLonger(conf, s.past, e, |s.past|);
    }
  }

  lemma LoginKeepsGood(conf: Config, s: State, e: Event, t: State)
    requires Good(conf, s) && s.tls && e.Login? && (e.user.Some? ==> AcceptedLogin(conf, e))
    requires t == Note(s, e).(user := e.user, replies := t.replies)
    ensures Good(conf, t)
  {
    OpenLonger(conf, s.past, e, s.sender, s.recipients);
    AllRecordsLonger(conf, s.past, e, s.records);
    assert t.past[..|s.past|] == s.past && t.past[|s.past|] == e;
    assert s.recipients + [] == s.recipients;
    if e.user.Some? {
      LoginAdmits(conf, s.past, e);
    }
  }

  lemma EnvelopeKeepsGood(conf: Config, s: State, e: Event, t: State)
    requires Good(conf, s) && (e.Mail? || e.Cleared? || e.Rcpt?)
    requires e.Mail? ==> s.user.Some?
    requires e.Rcpt? ==> s.sender.Some?
    requires t == Note(s, e).(replies := t.replies,
                              sender := if e.Mail? then Some(e.path) else if e.Rcpt? then s.sender else None,
                              recipients := if e.Rcpt? then s.recipients + [e.path] else [])
    ensures Good(conf, t)
  {
    AllRecordsLonger(conf, s.past, e, s.records);
    assert t.past[..|s.past|] == s.past && t.past[|s.past|] == e;
    if s.user.Some? {
      AdmittedLonger(conf, s.past, e, |s.past|);
    }
    match e
    case Mail(path) => OpenedByMail(conf, s.past, path);
    case Rcpt(path) => OpenLonger(conf, s.past, e, s.sender, s.recipients);
    case _ =>
  }

  lemma DataKeepsGood(conf: Config, s: State, content: string)
    requires Good(conf, s) && s.recipients != []
    ensures Good(conf, OnData(s, content))
  {
    var t := OnData(s, content);
    var r := Record(s.tls, s.user, s.sender, s.recipients, content);
    SentIsProper(conf, s.past, r);
    OneMoreRecord(conf, s.past, Sent(content), s.records, r);
    assert t.past[..|s.past|] == s.past && t.past[|s.past|] == Sent(content);
    assert LastLogin(t.past) == LastLogin(s.past);
    if s.user.Some? {
      AdmittedLonger(conf, s.past, Sent(content), |s.past|);
    }
  }

  lemma ReplyKeepsGood(conf: Config, s: State, t: State)
    requires Good(conf, s) && t == s.(replies := t.replies)
    ensures Good(conf, t)
  {
  }

  /** What a turn does to the session: replies at most, or one event with its effect. */
  predicate TurnDid(conf: Config, s: State, verb: Verb, argument: string, rest: string, t: State) {
    || t == s.(replies := t.replies)
    || match verb
       case StartTls => !s.tls && t == Note(s, Secured).(tls := true, replies := t.replies)
       case Auth =>
         var e := Login(t.user, Partition(argument).0, Presented(argument, rest));
         && s.tls && (t.user.Some? ==> AcceptedLogin(conf, e))
         && t == Note(s, e).(user := t.user, replies := t.replies)
       case MailFrom =>
         && s.user.Some? && PathArgument(argument, "FROM:") == t.sender && t.sender.Some?
         && t == Note(s, Mail(t.sender.value)).(sender := t.sender, recipients := [], replies := t.replies)
       case RcptTo =>
         && s.sender.Some? && PathArgument(argument, "TO:").Some?
         && var path := PathArgument(argument, "TO:").value;
            t == Note(s, Rcpt(path)).(recipients := s.recipients + [path], replies := t.replies)
       case Data => s.recipients != [] && t == OnData(s, ReadData(rest).0)
       case Rset => t == Note(s, Cleared).(sender := None, recipients := [], replies := t.replies)
       case _ => false
  }

  /** AUTH is accepted exactly for an XOAUTH2 response that names a user and a token
      the options let through; the replies say so, and a refusal by --reject-auth takes
      the extra challenge. */
  lemma AuthDecides(conf: Config, argument: string, rest: string)
    ensures var (user, after, codes) := AuthOutcome(conf, argument, rest);
            var (mechanism, encoded) := Partition(argument);
            var c := Presented(argument, rest);
            var asked := if encoded == "" then Rest(rest) else rest;
            var wellFormed := Upper(mechanism) == "XOAUTH2" && c.Some?;
            var accepted := wellFormed && !conf.rejectAuth && conf.allowed(c.value.token);
            var challenged := wellFormed && conf.rejectAuth;
            && user == (if accepted then Some(c.value.user) else None)
            && after == (if challenged then Rest(asked) else asked)
            && codes == (if encoded == "" then [334] else []) +
                        (if accepted then [235] else if challenged then [334, 535] else [535])
  {
  }

  /** A command is answered with 503, and changes nothing else, exactly when it is
      unknown or comes before its time. */
  lemma RefusesExactly(conf: Config, s: State, verb: Verb, argument: string, rest: string, secure: Option<string>)
    ensures TakeTurn(conf, s, verb, argument, rest, secure) == Turn(Reply(s, [503]), rest, secure, true) <==>
            match verb
            case StartTls => s.tls
            case Auth => !s.tls
            case MailFrom => s.user.None? || s.user.value == ""
            case RcptTo => s.sender.None?
            case Data => s.recipients == []
            case Unknown => true
            case _ => false
  {
    var t := TakeTurn(conf, s, verb, argument, rest, secure);
    assert Reply(s, [503]).replies[|s.replies|] == 503;
    if verb == Hello || verb == Noop || verb == Rset {
      assert t.state.replies[|s.replies|] == 250;
    } else if verb == Quit {
      assert t.state.replies[|s.replies|] == 221;
    } else if t.state.past != s.past {
      assert |t.state.past| == |s.past| + 1;
    }
  }

  lemma TurnDoes(conf: Config, s: State, verb: Verb, argument: string, rest: string, secure: Option<string>)
    ensures TurnDid(conf, s, verb, argument, rest, TakeTurn(conf, s, verb, argument, rest, secure).state)
  {
  }

  lemma TurnKeepsGood(conf: Config, s: State, verb: Verb, argument: string, rest: string, t: State)
    requires Good(conf, s) && TurnDid(conf, s, verb, argument, rest, t)
    ensures Good(conf, t)
  {
    if t == s.(replies := t.replies) {
      ReplyKeepsGood(conf, s, t);
    } else {
      match verb
      case StartTls => NotedKeepsGood(conf, s, Secured, t);
      case Auth => LoginKeepsGood(conf, s, Login(t.user, Partition(argument).0, Presented(argument, rest)), t);
      case MailFrom => EnvelopeKeepsGood(conf, s, Mail(t.sender.value), t);
      case RcptTo => EnvelopeKeepsGood(conf, s, Rcpt(PathArgument(argument, "TO:").value), t);
      case Data => DataKeepsGood(conf, s, ReadData(rest).0);
      case Rset => EnvelopeKeepsGood(conf, s, Cleared, t);
    }
  }

  // ---------------------------------------------------------------- main results

  lemma {:induction false} ServeKeepsGood(conf: Config, s: State, input: string, secure: Option<string>)
    requires Good(conf, s)
    ensures Good(conf, Serve(conf, s, input, secure))
    decreases Unread(input, secure)
  {
    if input != "" {
      var (word, argument) := Partition(Chomp(Line(input)));
      var t := TakeTurn(conf, s, VerbOf(word), argument, Rest(input), secure);
      TurnShrinks(conf, s, VerbOf(word), argument, Rest(input), secure);
      TurnDoes(conf, s, VerbOf(word), argument, Rest(input), secure);
      TurnKeepsGood(conf, s, VerbOf(word), argument, Rest(input), t.state);
      if t.goes {
        ServeKeepsGood(conf, t.state, t.input, t.secure);
      }
    }
  }

  lemma ConnectedIsGood(conf: Config)
    ensures Good(conf, CONNECTED)
  {
  }

  /** Whatever a client sends, every message on record came over TLS, after STARTTLS
      and then an accepted AUTH, in exactly the envelope of the last MAIL and the
      RCPTs since. */
  lemma EveryRecordIsProper(conf: Config, input: string, secure: Option<string>, k: nat)
    requires k < |Serve(conf, CONNECTED, input, secure).records|
    ensures var s := Serve(conf, CONNECTED, input, secure);
            exists m: nat, d: nat :: ProperlySent(conf, s.past, s.records[k], m, d)
  {
    ConnectedIsGood(conf);
    ServeKeepsGood(conf, CONNECTED, input, secure);
    var s := Serve(conf, CONNECTED, input, secure);
    assert RecordOk(conf, s.past, s.records[k]);
  }

  /** A client that never completes STARTTLS gets nothing: no user, no envelope, no record. */
  lemma NothingInTheClear(conf: Config, input: string)
    ensures var s := Serve(conf, CONNECTED, input, None);
            !s.tls && s.user.None? && s.sender.None? && s.recipients == [] && s.records == []
  {
    ConnectedIsGood(conf);
    ServeKeepsGood(conf, CONNECTED, input, None);
    ClearStaysClear(conf, CONNECTED, input);
    var s := Serve(conf, CONNECTED, input, None);
    if s.records != [] {
      RecordsMeanTls(conf, s);
    }
  }

  lemma RecordsMeanTls(conf: Config, s: State)
    requires Good(conf, s) && s.records != []
    ensures s.tls
  {
    assert RecordOk(conf, s.past, s.records[0]);
    var m: nat, d: nat :| ProperlySent(conf, s.past, s.records[0], m, d);
    var t: nat, a: nat :| t < a < |s.past| && a < m && s.past[t] == Secured && AcceptedLogin(conf, s.past[a]);
  }

  lemma {:induction false} ClearStaysClear(conf: Config, s: State, input: string)
    requires !s.tls
    ensures !Serve(conf, s, input, None).tls
    decreases |input|
  {
    if input != "" {
      var (word, argument) := Partition(Chomp(Line(input)));
      var t := TakeTurn(conf, s, VerbOf(word), argument, Rest(input), None);
      TurnShrinks(conf, s, VerbOf(word), argument, Rest(input), None);
      StaysClear(conf, s, VerbOf(word), argument, Rest(input));
      if t.goes {
        ClearStaysClear(conf, t.state, t.input);
      }
    }
  }

  lemma StaysClear(conf: Config, s: State, verb: Verb, argument: string, rest: string)
    requires !s.tls
    ensures var t := TakeTurn(conf, s, verb, argument, rest, None); !t.state.tls && t.secure.None?
  {
  }

  lemma RecordNeedsToken(conf: Config, past: seq<Event>, r: Record) returns (token: string)
    requires RecordOk(conf, past, r)
    ensures !conf.rejectAuth && conf.allowed(token)
  {
    var m: nat, d: nat :| ProperlySent(conf, past, r, m, d);
    var t: nat, a: nat :| t < a < |past| && a < m && past[t] == Secured && AcceptedLogin(conf, past[a]);
    token := past[a].presented.value.token;
  }

  /** With --reject-auth, or when no token is let through, nothing is ever recorded. */
  lemma NothingWithoutToken(conf: Config, input: string, secure: Option<string>)
    requires conf.rejectAuth || forall token: string :: !conf.allowed(token)
    ensures Serve(conf, CONNECTED, input, secure).records == []
  {
    var s := Serve(conf, CONNECTED, input, secure);
    if s.records != [] {
      EveryRecordIsProper(conf, input, secure, 0);
      var token := RecordNeedsToken(conf, s.past, s.records[0]);
      assert false;
    }
  }
}
