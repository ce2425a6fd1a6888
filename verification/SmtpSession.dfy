/** One session of the XOAUTH2 SMTP sink, as a function of what the client sends,
    and what holds of every message it records.  Texts are strings of bytes. */
module SmtpSession {
  import opened Common
  import opened Thumbprint
  import opened XOAuth2

  /** The sink's options: --reject-auth, and which tokens its checks let through. */
  datatype Config = Config(rejectAuth: bool, allowed: string -> bool)

  datatype Record = Record(tls: bool, user: Option<string>, sender: Option<string>, recipients: seq<string>,
                           content: string)

  /** The commands that changed the session, in order. */
  datatype Event =
    | Secured
    | Login(user: Option<string>, mechanism: string, presented: Option<Credentials>)
    | Mail(path: string)
    | Rcpt(path: string)
    | Sent(content: string)
    | Cleared

  datatype State = State(
    tls: bool,
    user: Option<string>,
    sender: Option<string>,
    recipients: seq<string>,
    records: seq<Record>,
    replies: seq<int>,
    past: seq<Event>)

  const CONNECTED := State(false, None, None, [], [], [220], [])

  // ------------------------------------------------------------------- reading

  /** readline: up to and including the first newline, or all there is. */
  function LineEnd(input: string): (e: nat)
    requires input != ""
    ensures 1 <= e <= |input|
  {
    if '\n' in input then IndexOf(input, '\n') + 1 else |input|
  }

  function Line(input: string): string {
    if input == "" then "" else input[..LineEnd(input)]
  }

  function Rest(input: string): (r: string)
    ensures input != "" ==> |r| < |input|
    ensures |r| <= |input|
  {
    if input == "" then "" else input[LineEnd(input)..]
  }

  function Chomp(line: string): string {
    if line != "" && (line[|line| - 1] == '\r' || line[|line| - 1] == '\n') then Chomp(line[..|line| - 1]) else line
  }

  /** str.partition(" ") without its middle. */
  function Partition(s: string): (string, string) {
    if ' ' in s then (s[..IndexOf(s, ' ')], s[IndexOf(s, ' ') + 1..]) else (s, "")
  }

  function FirstWord(s: string): string {
    if s == "" || IsSpace(s[0]) then "" else [s[0]] + FirstWord(s[1..])
  }

  /** path_argument: None where it raises. */
  function PathArgument(argument: string, prefix: string): Option<string> {
    var value := Strip(if prefix <= argument then argument[|prefix|..] else argument);
    if value == "" then None
    else if value[0] == '<' && '>' in value[1..] then Some(value[1..][..IndexOf(value[1..], '>')])
    else Some(FirstWord(value))
  }

  predicate IsEnd(line: string) {
    line == ".\r\n" || line == ".\n"
  }

  function Unstuffed(line: string): string {
    if ".." <= line then line[1..] else line
  }

  /** The DATA reader: up to a lone dot, or the end of the connection. */
  function ReadData(input: string): (string, string)
    decreases |input|
  {
    if input == "" then ("", "")
    else if IsEnd(Line(input)) then ("", Rest(input))
    else
      var (content, rest) := ReadData(Rest(input));
      (Unstuffed(Line(input)) + content, rest)
  }

  // ---------------------------------------------------------------------- turns

  datatype Verdict = Malformed | Rejected | WrongToken | Accepted(user: string)

  function Judge(conf: Config, mechanism: string, encoded: string): Verdict {
    match Parse(encoded)
    case None => Malformed
    case Some(c) =>
      if Upper(mechanism) != "XOAUTH2" then Malformed
      else if conf.rejectAuth then Rejected
      else if !conf.allowed(c.token) then WrongToken
      else Accepted(c.user)
  }

  /** What is left to read, and whether the session goes on. */
  datatype Turn = Turn(state: State, input: string, secure: Option<string>, goes: bool)

  function Reply(s: State, codes: seq<int>): State {
    s.(replies := s.replies + codes)
  }

  function Note(s: State, e: Event): State {
    s.(past := s.past + [e])
  }

  /** The initial response, or the line sent after a 334. */
  function Challenge(argument: string, rest: string): (string, string, seq<int>) {
    var (mechanism, encoded) := Partition(argument);
    if encoded == "" then (Strip(Line(rest)), Rest(rest), [334]) else (encoded, rest, [])
  }

  /** The user and token a client presents, None when they cannot be read. */
  function Presented(argument: string, rest: string): Option<Credentials> {
    Parse(Challenge(argument, rest).0)
  }

  /** authenticate: the new user, what is left to read, and the replies. */
  function AuthOutcome(conf: Config, argument: string, rest: string): (Option<string>, string, seq<int>) {
    var (encoded, after, codes) := Challenge(argument, rest);
    match Judge(conf, Partition(argument).0, encoded)
    case Accepted(user) => (Some(user), after, codes + [235])
    case Rejected => (None, Rest(after), codes + [334, 535])
    case _ => (None, after, codes + [535])
  }

  function OnAuth(conf: Config, s: State, argument: string, rest: string): (State, string) {
    var (user, after, codes) := AuthOutcome(conf, argument, rest);
    (Note(Reply(s, codes), Login(user, Partition(argument).0, Presented(argument, rest))).(user := user), after)
  }

  function OnData(s: State, content: string): State {
    Note(Reply(s, [354, 250]), Sent(content)).(
      records := s.records + [Record(s.tls, s.user, s.sender, s.recipients, content)],
      sender := None, recipients := [])
  }

  datatype Verb = Hello | StartTls | Auth | MailFrom | RcptTo | Data | Rset | Noop | Quit | Unknown

  function VerbOf(word: string): Verb {
    Named(Upper(word))
  }

  function Named(w: string): Verb {
    if w == "EHLO" || w == "HELO" then Hello
    else if w == "STARTTLS" then StartTls
    else if w == "AUTH" then Auth
    else if w == "MAIL" then MailFrom
    else if w == "RCPT" then RcptTo
    else if w == "DATA" then Data
    else if w == "RSET" then Rset
    else if w == "NOOP" then Noop
    else if w == "QUIT" then Quit
    else Unknown
  }

  function OutOfOrder(s: State, rest: string, secure: Option<string>): Turn {
    Turn(Reply(s, [503]), rest, secure, true)
  }

  /** One command; `rest` is the input after its line. */
  function TakeTurn(conf: Config, s: State, verb: Verb, argument: string, rest: string, secure: Option<string>): Turn {
    match verb
    case Hello => Turn(Reply(s, [250]), rest, secure, true)
    case StartTls =>
      if s.tls then OutOfOrder(s, rest, secure)
      else if secure.None? then Turn(Reply(s, [220]), "", None, false)
      else Turn(Note(Reply(s, [220]), Secured).(tls := true), secure.value, None, true)
    case Auth =>
      if !s.tls then OutOfOrder(s, rest, secure)
      else
        var (t, after) := OnAuth(conf, s, argument, rest);
        Turn(t, after, secure, true)
    case MailFrom =>
      if s.user.None? || s.user.value == "" then OutOfOrder(s, rest, secure)
      else
        (match PathArgument(argument, "FROM:")
         case None => Turn(s, rest, secure, false)
         case Some(path) =>
           Turn(Note(Reply(s, [250]), Mail(path)).(sender := Some(path), recipients := []), rest, secure, true))
    case RcptTo =>
      if s.sender.None? then OutOfOrder(s, rest, secure)
      else
        (match PathArgument(argument, "TO:")
         case None => Turn(s, rest, secure, false)
         case Some(path) =>
           Turn(Note(Reply(s, [250]), Rcpt(path)).(recipients := s.recipients + [path]), rest, secure, true))
    case Data =>
      if s.recipients == [] then OutOfOrder(s, rest, secure)
      else
        var (content, after) := ReadData(rest);
        Turn(OnData(s, content), after, secure, true)
    case Rset => Turn(Note(Reply(s, [250]), Cleared).(sender := None, recipients := []), rest, secure, true)
    case Noop => Turn(Reply(s, [250]), rest, secure, true)
    case Quit => Turn(Reply(s, [221]), rest, secure, false)
    case Unknown => OutOfOrder(s, rest, secure)
  }

  function Unread(input: string, secure: Option<string>): nat {
    |input| + match secure case None => 0 case Some(stream) => |stream| + 1
  }

  lemma {:induction false} ReadDataShrinks(input: string)
    ensures |ReadData(input).1| <= |input|
    decreases |input|
  {
    if input != "" {
      ReadDataShrinks(Rest(input));
    }
  }

  lemma TurnShrinks(conf: Config, s: State, verb: Verb, argument: string, rest: string, secure: Option<string>)
    ensures var t := TakeTurn(conf, s, verb, argument, rest, secure);
            t.goes ==> Unread(t.input, t.secure) <= Unread(rest, secure)
  {
    match verb
    case Data => ReadDataShrinks(rest);
    case _ =>
  }

  /** The whole session on the bytes sent in the clear and, after STARTTLS, those
      sent over TLS (None when the handshake fails). */
  function Serve(conf: Config, s: State, input: string, secure: Option<string>): State
    decreases Unread(input, secure)
  {
    if input == "" then s
    else
      var (word, argument) := Partition(Chomp(Line(input)));
      var t := TakeTurn(conf, s, VerbOf(word), argument, Rest(input), secure);
      TurnShrinks(conf, s, VerbOf(word), argument, Rest(input), secure);
      if t.goes then Serve(conf, t.state, t.input, t.secure) else t.state
  }
}
