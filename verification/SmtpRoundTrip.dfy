/** The sink reads back what a correct client sends: dot-stuffed messages
    (RFC 5321, section 4.5.2), SMTP paths, XOAUTH2 credentials either way, and a
    whole session. */
module SmtpRoundTrip {
  import opened Common
  import opened Thumbprint
  import opened XOAuth2
  import opened SmtpSession

  // -------------------------------------------------------------- dot stuffing

  predicate IsLine(s: string) {
    '\n' !in s
  }

  /** The message: each line ended by CRLF. */
  function Message(lines: seq<string>): string {
    if lines == [] then "" else lines[0] + "\r\n" + Message(lines[1..])
  }

  /** The same on the wire: a line that starts with a dot gets one more. */
  function Stuffed(lines: seq<string>): string {
    if lines == [] then ""
    else (if "." <= lines[0] then "." + lines[0] else lines[0]) + "\r\n" + Stuffed(lines[1..])
  }

  lemma ReadsLine(body: string, rest: string)
    requires IsLine(body)
    ensures Line(body + "\r\n" + rest) == body + "\r\n" && Rest(body + "\r\n" + rest) == rest
  {
    var input := body + "\r\n" + rest;
    assert input == (body + "\r") + ['\n'] + rest;
    FirstIs(body + "\r", rest, '\n');
  }

  /** A message cut off by the end of the connection is read as far as it came. */
  lemma {:induction false} UnfinishedData(lines: seq<string>)
    requires forall k | 0 <= k < |lines| :: IsLine(lines[k])
    ensures ReadData(Stuffed(lines)) == (Message(lines), "")
    decreases |lines|
  {
    if lines != [] {
      var sent := if "." <= lines[0] then "." + lines[0] else lines[0];
      ReadsLine(sent, Stuffed(lines[1..]));
      assert sent + "\r\n" + Stuffed(lines[1..]) == Stuffed(lines);
      NotTheEnd(lines[0], sent);
      UnfinishedData(lines[1..]);
      Unstuffs(lines[0], sent);
    }
  }

  lemma {:induction false} DotStuffing(lines: seq<string>, rest: string)
    requires forall k | 0 <= k < |lines| :: IsLine(lines[k])
    ensures ReadData(Stuffed(lines) + ".\r\n" + rest) == (Message(lines), rest)
    decreases |lines|
  {
    var input := Stuffed(lines) + ".\r\n" + rest;
    if lines == [] {
      assert input == "." + "\r\n" + rest;
      ReadsLine(".", rest);
      assert "." + "\r\n" == ".\r\n";
    } else {
      var sent := if "." <= lines[0] then "." + lines[0] else lines[0];
      var more := Stuffed(lines[1..]) + ".\r\n" + rest;
      assert input == sent + "\r\n" + more;
      ReadsLine(sent, more);
      NotTheEnd(lines[0], sent);
      DotStuffing(lines[1..], rest);
      Unstuffs(lines[0], sent);
    }
  }

  lemma NotTheEnd(line: string, sent: string)
    requires sent == (if "." <= line then "." + line else line)
    ensures sent + "\r\n" != ".\r\n" && sent + "\r\n" != ".\n"
  {
    var whole := sent + "\r\n";
    assert |sent| == 0 ==> whole[0] == '\r';
    assert |sent| == 1 ==> whole[0] == sent[0] != '.';
  }

  lemma Unstuffs(line: string, sent: string)
    requires sent == (if "." <= line then "." + line else line)
    ensures (if ".." <= sent + "\r\n" then (sent + "\r\n")[1..] else sent + "\r\n") == line + "\r\n"
  {
    var whole := sent + "\r\n";
    if "." <= line {
      assert whole[0] == '.' && whole[1] == '.';
      assert whole[1..] == line + "\r\n";
    } else {
      assert line != "" ==> whole[0] == line[0] != '.';
      assert line == "" ==> whole[0] == '\r';
    }
  }

  // ------------------------------------------------------------------ SMTP paths

  lemma {:induction false} StripsBehind(a: string, b: string) returns (kept: string)
    requires a != "" && !IsSpace(a[0]) && !IsSpace(a[|a| - 1])
    ensures Strip(a + b) == a + kept
    decreases |b|
  {
    var s := a + b;
    if b != "" && IsSpace(b[|b| - 1]) {
      assert s[..|s| - 1] == a + b[..|b| - 1];
      kept := StripsBehind(a, b[..|b| - 1]);
    } else {
      kept := b;
    }
  }

  /** The path is what stands between the angle brackets, whatever parameters follow. */
  lemma PathIsBetweenBrackets(prefix: string, path: string, parameters: string)
    requires '>' !in path
    ensures PathArgument(prefix + ("<" + path + ">" + parameters), prefix) == Some(path)
  {
    var bracketed := "<" + path + ">";
    var argument := prefix + (bracketed + parameters);
    assert argument[|prefix|..] == bracketed + parameters;
    var kept := StripsBehind(bracketed, parameters);
    var value := bracketed + kept;
    assert value[0] == '<' && value[1..] == path + ['>'] + kept;
    FirstIs(path, kept, '>');
    assert value[1..][..|path|] == path;
  }

  // ------------------------------------------------------------------------ AUTH

  /** One line, without its line end, whose last character is not a line end either. */
  predicate IsCommand(s: string) {
    IsLine(s) && s != "" && s[|s| - 1] != '\r'
  }

  lemma EncodedIsPlain(user: string, token: string)
    requires Sendable(user) && Sendable(token)
    ensures var e := Encoded(user, token);
            IsCommand(e) && forall i | 0 <= i < |e| :: !IsSpace(e[i])
  {
    var bytes := Bytes(Response(user, token));
    Base64.DigitsShape(Base64.Sextets(bytes));
    assert |bytes| > 0;
    Base64.EncodeShape(bytes);
    var e := Encoded(user, token);
    forall i | 0 <= i < |e| ensures Base64.IsDigit(e[i]) || e[i] == '=' { }
  }

  lemma ChompLine(body: string)
    requires IsCommand(body)
    ensures Chomp(body + "\r\n") == body
  {
    var s := body + "\r\n";
    assert s[..|s| - 1] == body + "\r";
    assert (body + "\r")[..|body|] == body;
    assert body[|body| - 1] in body;
    assert Chomp(body) == body;
    assert Chomp(body + "\r") == Chomp(body);
  }

  lemma PartsOf(word: string, argument: string)
    requires ' ' !in word
    ensures Partition(word + " " + argument) == (word, argument)
    ensures Partition(word) == (word, "")
  {
    FirstIs(word, argument, ' ');
    var s := word + [' '] + argument;
    assert word + " " + argument == s;
    assert s[..|word|] == word && s[|word| + 1..] == argument;
  }

  /** The credentials arrive alike with the AUTH command or on a line of their own
      after the 334. */
  lemma AuthEitherWay(conf: Config, s: State, mechanism: string, user: string, token: string, rest: string)
    requires Sendable(user) && Sendable(token) && ' ' !in mechanism
    ensures var e := Encoded(user, token);
            && Challenge(mechanism + " " + e, rest) == (e, rest, [])
            && Challenge(mechanism, e + "\r\n" + rest) == (e, rest, [334])
            && Judge(conf, mechanism, e) ==
               (if Upper(mechanism) != "XOAUTH2" then Malformed
                else if conf.rejectAuth then Rejected
                else if !conf.allowed(token) then WrongToken
                else Accepted(user))
  {
    var e := Encoded(user, token);
    EncodedIsPlain(user, token);
    RoundTrips(user, token);
    PartsOf(mechanism, e);
    ReadsLine(e, rest);
    StripsLineEnd(e);
  }

  lemma StripsLineEnd(s: string)
    requires forall i | 0 <= i < |s| :: !IsSpace(s[i])
    ensures Strip(s + "\r\n") == s
  {
    var t := s + "\r\n";
    if s == "" {
      assert t[1..] == "\n" && "\n"[1..] == "";
    } else {
      assert t[..|t| - 1] == s + "\r";
      assert (s + "\r")[..|s|] == s;
    }
  }

  // --------------------------------------------------------------- whole sessions

  lemma {:induction false} UpperKeeps(s: string)
    requires forall i | 0 <= i < |s| :: !('a' <= s[i] <= 'z')
    ensures Upper(s) == s
    decreases |s|
  {
    if s != "" {
      UpperKeeps(s[1..]);
    }
  }

  /** A word that stands for the verb. */
  predicate Names(word: string, verb: Verb) {
    ' ' !in word && IsCommand(word) && VerbOf(word) == verb
  }

  lemma NamesItself(word: string, verb: Verb)
    requires word != "" && (forall i | 0 <= i < |word| :: 'A' <= word[i] <= 'Z') && Named(word) == verb
    ensures Names(word, verb)
  {
    UpperKeeps(word);
  }

  lemma HelloIs()
    ensures Names("EHLO", Hello)
  {
    NamesItself("EHLO", Hello);
  }

  lemma StartTlsIs()
    ensures Names("STARTTLS", StartTls)
  {
    NamesItself("STARTTLS", StartTls);
  }

  lemma AuthIs()
    ensures Names("AUTH", Auth)
  {
    NamesItself("AUTH", Auth);
  }

  lemma MailIs()
    ensures Names("MAIL", MailFrom)
  {
    NamesItself("MAIL", MailFrom);
  }

  lemma RcptIs()
    ensures Names("RCPT", RcptTo)
  {
    NamesItself("RCPT", RcptTo);
  }

  lemma DataIs()
    ensures Names("DATA", Data)
  {
    NamesItself("DATA", Data);
  }

  lemma QuitIs()
    ensures Names("QUIT", Quit)
  {
    NamesItself("QUIT", Quit);
  }

  function CommandText(word: string, argument: string): string {
    word + " " + argument + "\r\n"
  }

  lemma OneCommand(conf: Config, s: State, word: string, argument: string, verb: Verb, rest: string,
                   secure: Option<string>)
    requires Names(word, verb) && IsCommand(argument)
    ensures var t := TakeTurn(conf, s, verb, argument, rest, secure);
            Serve(conf, s, CommandText(word, argument) + rest, secure) ==
            if t.goes then Serve(conf, t.state, t.input, t.secure) else t.state
  {
    var command := word + " " + argument;
    assert command[|command| - 1] == argument[|argument| - 1];
    ReadsLine(command, rest);
    ChompLine(command);
    PartsOf(word, argument);
  }

  lemma OneWord(conf: Config, s: State, word: string, verb: Verb, rest: string, secure: Option<string>)
    requires Names(word, verb)
    ensures var t := TakeTurn(conf, s, verb, "", rest, secure);
            Serve(conf, s, word + "\r\n" + rest, secure) ==
            if t.goes then Serve(conf, t.state, t.input, t.secure) else t.state
  {
    ReadsLine(word, rest);
    ChompLine(word);
    PartsOf(word, "");
  }

  /** Over TLS, the text takes the session from s to t, and no further. */
  ghost predicate Leads(conf: Config, s: State, text: string, t: State) {
    forall rest: string :: Serve(conf, s, text + rest, None) == Serve(conf, t, rest, None)
  }

  lemma Assoc(a: string, b: string, c: string)
    ensures a + b + c == a + (b + c)
  {
  }

  lemma LeadsAt(conf: Config, s: State, a: string, t: State, b: string, u: State, rest: string)
    requires Serve(conf, s, a + (b + rest), None) == Serve(conf, t, b + rest, None)
    requires Serve(conf, t, b + rest, None) == Serve(conf, u, rest, None)
    ensures Serve(conf, s, (a + b) + rest, None) == Serve(conf, u, rest, None)
  {
    Assoc(a, b, rest);
  }

  lemma LeadsOn(conf: Config, s: State, a: string, t: State, b: string, u: State)
    requires Leads(conf, s, a, t) && Leads(conf, t, b, u)
    ensures Leads(conf, s, a + b, u)
  {
    forall rest: string ensures Serve(conf, s, (a + b) + rest, None) == Serve(conf, u, rest, None) {
      LeadsAt(conf, s, a, t, b, u, rest);
    }
  }

  lemma LeadsNowhere(conf: Config, s: State)
    ensures Leads(conf, s, "", s)
  {
    forall rest: string ensures Serve(conf, s, "" + rest, None) == Serve(conf, s, rest, None) {
      assert "" + rest == rest;
    }
  }

  /** A command that reads nothing beyond its line. */
  ghost predicate Turns(conf: Config, s: State, verb: Verb, argument: string, t: State) {
    forall rest: string :: TakeTurn(conf, s, verb, argument, rest, None) == Turn(t, rest, None, true)
  }

  lemma CommandLeads(conf: Config, s: State, word: string, argument: string, verb: Verb, t: State)
    requires Names(word, verb) && IsCommand(argument) && Turns(conf, s, verb, argument, t)
    ensures Leads(conf, s, CommandText(word, argument), t)
  {
    forall rest: string ensures Serve(conf, s, CommandText(word, argument) + rest, None) == Serve(conf, t, rest, None) {
      OneCommand(conf, s, word, argument, verb, rest, None);
      assert TakeTurn(conf, s, verb, argument, rest, None) == Turn(t, rest, None, true);
    }
  }

  /** A command that reads the body after its line, and no more. */
  ghost predicate TurnsWith(conf: Config, s: State, verb: Verb, argument: string, body: string, t: State) {
    forall rest: string :: TakeTurn(conf, s, verb, argument, body + rest, None) == Turn(t, rest, None, true)
  }

  lemma CommandBodyAt(conf: Config, s: State, word: string, argument: string, verb: Verb, body: string, t: State,
                      rest: string)
    requires Names(word, verb) && IsCommand(argument)
    requires TakeTurn(conf, s, verb, argument, body + rest, None) == Turn(t, rest, None, true)
    ensures Serve(conf, s, CommandText(word, argument) + (body + rest), None) == Serve(conf, t, rest, None)
  {
    OneCommand(conf, s, word, argument, verb, body + rest, None);
  }

  lemma CommandBodyLeads(conf: Config, s: State, word: string, argument: string, verb: Verb, body: string, t: State)
    requires Names(word, verb) && IsCommand(argument) && TurnsWith(conf, s, verb, argument, body, t)
    ensures Leads(conf, s, CommandText(word, argument) + body, t)
  {
    var text := CommandText(word, argument);
    forall rest: string ensures Serve(conf, s, text + body + rest, None) == Serve(conf, t, rest, None) {
      CommandBodyAt(conf, s, word, argument, verb, body, t, rest);
      Assoc(text, body, rest);
    }
  }

  lemma WordBodyAt(conf: Config, s: State, word: string, verb: Verb, body: string, t: State, rest: string)
    requires Names(word, verb)
    requires TakeTurn(conf, s, verb, "", body + rest, None) == Turn(t, rest, None, true)
    ensures Serve(conf, s, word + "\r\n" + (body + rest), None) == Serve(conf, t, rest, None)
  {
    OneWord(conf, s, word, verb, body + rest, None);
  }

  lemma WordBodyLeads(conf: Config, s: State, word: string, verb: Verb, body: string, t: State)
    requires Names(word, verb) && TurnsWith(conf, s, verb, "", body, t)
    ensures Leads(conf, s, word + "\r\n" + body, t)
  {
    var text := word + "\r\n";
    forall rest: string ensures Serve(conf, s, text + body + rest, None) == Serve(conf, t, rest, None) {
      WordBodyAt(conf, s, word, verb, body, t, rest);
      Assoc(text, body, rest);
    }
  }

  // the credentials

  function AuthText(user: string, token: string, split: bool): string
    requires Sendable(user) && Sendable(token)
  {
    if split then CommandText("AUTH", "XOAUTH2") + (Encoded(user, token) + "\r\n")
    else CommandText("AUTH", "XOAUTH2" + " " + Encoded(user, token))
  }

  function LoggedIn(s: State, mechanism: string, user: string, token: string, codes: seq<int>): State {
    Note(Reply(s, codes), Login(Some(user), mechanism, Some(Credentials(user, token)))).(user := Some(user))
  }

  lemma AuthTurnOf(conf: Config, s: State, argument: string, rest: string, encoded: string, after: string,
                   codes: seq<int>, mechanism: string, user: string, token: string)
    requires s.tls && Challenge(argument, rest) == (encoded, after, codes) && mechanism == Partition(argument).0
    requires Judge(conf, mechanism, encoded) == Accepted(user) && Parse(encoded) == Some(Credentials(user, token))
    ensures TakeTurn(conf, s, Auth, argument, rest, None) ==
            Turn(LoggedIn(s, mechanism, user, token, codes + [235]), after, None, true)
  {
  }

  lemma AuthTurnAt(conf: Config, s: State, mechanism: string, user: string, token: string, rest: string)
    requires Sendable(user) && Sendable(token) && s.tls && !conf.rejectAuth && conf.allowed(token)
    requires ' ' !in mechanism && Upper(mechanism) == "XOAUTH2"
    ensures var e := Encoded(user, token);
            && TakeTurn(conf, s, Auth, mechanism + " " + e, rest, None) ==
               Turn(LoggedIn(s, mechanism, user, token, [235]), rest, None, true)
            && TakeTurn(conf, s, Auth, mechanism, e + "\r\n" + rest, None) ==
               Turn(LoggedIn(s, mechanism, user, token, [334, 235]), rest, None, true)
  {
    var e := Encoded(user, token);
    PartsOf(mechanism, e);
    RoundTrips(user, token);
    AuthEitherWay(conf, s, mechanism, user, token, rest);
    AuthTurnOf(conf, s, mechanism + " " + e, rest, e, rest, [], mechanism, user, token);
    AuthTurnOf(conf, s, mechanism, e + "\r\n" + rest, e, rest, [334], mechanism, user, token);
    assert [] + [235] == [235] && [334] + [235] == [334, 235];
  }

  /** The credentials on the AUTH line. */
  lemma AuthTurns(conf: Config, s: State, mechanism: string, user: string, token: string)
    requires Sendable(user) && Sendable(token) && s.tls && !conf.rejectAuth && conf.allowed(token)
    requires ' ' !in mechanism && Upper(mechanism) == "XOAUTH2"
    ensures Turns(conf, s, Auth, mechanism + " " + Encoded(user, token), LoggedIn(s, mechanism, user, token, [235]))
  {
    forall rest: string
      ensures TakeTurn(conf, s, Auth, mechanism + " " + Encoded(user, token), rest, None) ==
              Turn(LoggedIn(s, mechanism, user, token, [235]), rest, None, true)
    {
      AuthTurnAt(conf, s, mechanism, user, token, rest);
    }
  }

  /** The credentials on the next line. */
  lemma SplitAuthTurns(conf: Config, s: State, mechanism: string, user: string, token: string)
    requires Sendable(user) && Sendable(token) && s.tls && !conf.rejectAuth && conf.allowed(token)
    requires ' ' !in mechanism && Upper(mechanism) == "XOAUTH2"
    ensures TurnsWith(conf, s, Auth, mechanism, Encoded(user, token) + "\r\n",
                      LoggedIn(s, mechanism, user, token, [334, 235]))
  {
    forall rest: string
      ensures TakeTurn(conf, s, Auth, mechanism, Encoded(user, token) + "\r\n" + rest, None) ==
              Turn(LoggedIn(s, mechanism, user, token, [334, 235]), rest, None, true)
    {
      AuthTurnAt(conf, s, mechanism, user, token, rest);
    }
  }

  lemma AuthLeadsBy(conf: Config, s: State, word: string, mechanism: string, user: string, token: string)
    requires Sendable(user) && Sendable(token) && s.tls && !conf.rejectAuth && conf.allowed(token)
    requires Names(word, Auth) && ' ' !in mechanism && IsCommand(mechanism) && Upper(mechanism) == "XOAUTH2"
    ensures Leads(conf, s, CommandText(word, mechanism) + (Encoded(user, token) + "\r\n"),
                  LoggedIn(s, mechanism, user, token, [334, 235]))
    ensures Leads(conf, s, CommandText(word, mechanism + " " + Encoded(user, token)),
                  LoggedIn(s, mechanism, user, token, [235]))
  {
    var e := Encoded(user, token);
    EncodedIsPlain(user, token);
    SplitAuthTurns(conf, s, mechanism, user, token);
    CommandBodyLeads(conf, s, word, mechanism, Auth, e + "\r\n", LoggedIn(s, mechanism, user, token, [334, 235]));
    var argument := mechanism + " " + e;
    assert argument[|argument| - 1] == e[|e| - 1];
    AuthTurns(conf, s, mechanism, user, token);
    CommandLeads(conf, s, word, argument, Auth, LoggedIn(s, mechanism, user, token, [235]));
  }

  lemma MechanismIs()
    ensures ' ' !in "XOAUTH2" && IsCommand("XOAUTH2") && Upper("XOAUTH2") == "XOAUTH2"
  {
    UpperKeeps("XOAUTH2");
  }

  lemma AuthLeads(conf: Config, s: State, user: string, token: string, split: bool)
    requires Sendable(user) && Sendable(token) && s.tls && !conf.rejectAuth && conf.allowed(token)
    ensures Leads(conf, s, AuthText(user, token, split),
                  LoggedIn(s, "XOAUTH2", user, token, if split then [334, 235] else [235]))
  {
    AuthIs();
    MechanismIs();
    AuthLeadsBy(conf, s, "AUTH", "XOAUTH2", user, token);
  }

  // the envelope

  /** A path as a client may send it. */
  predicate IsPath(s: string) {
    '>' !in s && IsLine(s)
  }

  predicate IsParameters(s: string) {
    IsLine(s) && (s != "" ==> s[|s| - 1] != '\r')
  }

  function PathText(prefix: string, path: string, parameters: string): string {
    prefix + ("<" + path + ">" + parameters)
  }

  lemma PathTextIsCommand(prefix: string, path: string, parameters: string)
    requires IsLine(prefix) && IsPath(path) && IsParameters(parameters)
    ensures IsCommand(PathText(prefix, path, parameters))
  {
    var c := PathText(prefix, path, parameters);
    assert c[|c| - 1] == if parameters == "" then '>' else parameters[|parameters| - 1];
  }

  function Opened(s: State, path: string): State {
    Note(Reply(s, [250]), Mail(path)).(sender := Some(path), recipients := [])
  }

  lemma MailLeads(conf: Config, s: State, path: string, parameters: string)
    requires IsPath(path) && IsParameters(parameters) && s.user.Some? && s.user.value != ""
    ensures Leads(conf, s, CommandText("MAIL", PathText("FROM:", path, parameters)), Opened(s, path))
  {
    MailIs();
    PathTextIsCommand("FROM:", path, parameters);
    PathIsBetweenBrackets("FROM:", path, parameters);
    CommandLeads(conf, s, "MAIL", PathText("FROM:", path, parameters), MailFrom, Opened(s, path));
  }

  function RcptLine(path: string): string {
    CommandText("RCPT", PathText("TO:", path, ""))
  }

  function RcptText(paths: seq<string>): string {
    if paths == [] then "" else RcptLine(paths[0]) + RcptText(paths[1..])
  }

  function Adding(s: State, path: string): State {
    Note(Reply(s, [250]), Rcpt(path)).(recipients := s.recipients + [path])
  }

  function Addressed(s: State, paths: seq<string>): State
    decreases |paths|
  {
    if paths == [] then s
    else Addressed(Adding(s, paths[0]), paths[1..])
  }

  lemma {:induction false} AddressedHas(s: State, paths: seq<string>)
    ensures var t := Addressed(s, paths);
            t == s.(recipients := s.recipients + paths, replies := t.replies, past := t.past)
    decreases |paths|
  {
    if paths == [] {
      assert s.recipients + paths == s.recipients;
    } else {
      AddressedHas(Adding(s, paths[0]), paths[1..]);
      assert s.recipients + [paths[0]] + paths[1..] == s.recipients + paths;
    }
  }

  function Oks(n: nat): seq<int> {
    if n == 0 then [] else [250] + Oks(n - 1)
  }

  lemma {:induction false} AddressedReplies(s: State, paths: seq<string>)
    ensures Addressed(s, paths).replies == s.replies + Oks(|paths|)
    decreases |paths|
  {
    if paths == [] {
      assert s.replies + [] == s.replies;
    } else {
      AddressedReplies(Adding(s, paths[0]), paths[1..]);
      Regroup(s.replies, [250], Oks(|paths| - 1));
    }
  }

  lemma Regroup(a: seq<int>, b: seq<int>, c: seq<int>)
    ensures a + b + c == a + (b + c)
  {
  }

  /** A path without brackets is the first word; an argument with nothing in it raises. */
  lemma PathIsFirstWord(prefix: string, path: string, rest: string)
    requires path != "" && path[0] != '<' && forall i | 0 <= i < |path| :: !IsSpace(path[i])
    requires rest != "" ==> IsSpace(rest[0]) && !IsSpace(rest[|rest| - 1])
    ensures PathArgument(prefix + (path + rest), prefix) == Some(path)
    ensures PathArgument(prefix, prefix) == None
  {
    var value := path + rest;
    assert (prefix + value)[|prefix|..] == value && prefix[|prefix|..] == "";
    assert value[0] == path[0] && value[|value| - 1] == if rest == "" then path[|path| - 1] else rest[|rest| - 1];
    assert Strip(value) == value && Strip("") == "";
    FirstWordOf(path, rest);
  }

  lemma {:induction false} FirstWordOf(word: string, rest: string)
    requires (forall i | 0 <= i < |word| :: !IsSpace(word[i])) && (rest != "" ==> IsSpace(rest[0]))
    ensures FirstWord(word + rest) == word
    decreases |word|
  {
    if word == "" {
      assert word + rest == rest;
    } else {
      assert (word + rest)[1..] == word[1..] + rest;
      FirstWordOf(word[1..], rest);
    }
  }

  lemma RcptLeads(conf: Config, s: State, path: string)
    requires s.sender.Some? && IsPath(path)
    ensures Leads(conf, s, RcptLine(path), Adding(s, path))
  {
    RcptIs();
    PathTextIsCommand("TO:", path, "");
    PathIsBetweenBrackets("TO:", path, "");
    CommandLeads(conf, s, "RCPT", PathText("TO:", path, ""), RcptTo, Adding(s, path));
  }

  lemma {:induction false} RcptsLead(conf: Config, s: State, paths: seq<string>)
    requires s.sender.Some? && forall k | 0 <= k < |paths| :: IsPath(paths[k])
    ensures Leads(conf, s, RcptText(paths), Addressed(s, paths))
    decreases |paths|
  {
    if paths == [] {
      LeadsNowhere(conf, s);
    } else {
      var t := Adding(s, paths[0]);
      RcptLeads(conf, s, paths[0]);
      RcptsLead(conf, t, paths[1..]);
      LeadsOn(conf, s, RcptLine(paths[0]), t, RcptText(paths[1..]), Addressed(s, paths));
    }
  }

  // the message

  function DataText(lines: seq<string>): string {
    "DATA" + "\r\n" + (Stuffed(lines) + ".\r\n")
  }

  lemma DataTurnOf(conf: Config, s: State, rest: string, content: string, after: string)
    requires s.recipients != [] && ReadData(rest) == (content, after)
    ensures TakeTurn(conf, s, Data, "", rest, None) == Turn(OnData(s, content), after, None, true)
  {
  }

  lemma DataTurns(conf: Config, s: State, lines: seq<string>)
    requires s.recipients != [] && forall k | 0 <= k < |lines| :: IsLine(lines[k])
    ensures TurnsWith(conf, s, Data, "", Stuffed(lines) + ".\r\n", OnData(s, Message(lines)))
  {
    forall rest: string
      ensures TakeTurn(conf, s, Data, "", Stuffed(lines) + ".\r\n" + rest, None) ==
              Turn(OnData(s, Message(lines)), rest, None, true)
    {
      DotStuffing(lines, rest);
      DataTurnOf(conf, s, Stuffed(lines) + ".\r\n" + rest, Message(lines), rest);
    }
  }

  lemma DataLeads(conf: Config, s: State, lines: seq<string>)
    requires s.recipients != [] && forall k | 0 <= k < |lines| :: IsLine(lines[k])
    ensures Leads(conf, s, DataText(lines), OnData(s, Message(lines)))
  {
    DataIs();
    DataTurns(conf, s, lines);
    WordBodyLeads(conf, s, "DATA", Data, Stuffed(lines) + ".\r\n", OnData(s, Message(lines)));
  }

  // letters

  datatype Letter = Letter(sender: string, parameters: string, recipients: seq<string>, lines: seq<string>)

  /** Something to send: parameters on the MAIL line, at least one recipient. */
  predicate IsLetter(l: Letter) {
    && IsPath(l.sender) && IsParameters(l.parameters)
    && l.recipients != [] && (forall k | 0 <= k < |l.recipients| :: IsPath(l.recipients[k]))
    && (forall k | 0 <= k < |l.lines| :: IsLine(l.lines[k]))
  }

  function LetterText(l: Letter): string {
    CommandText("MAIL", PathText("FROM:", l.sender, l.parameters)) + RcptText(l.recipients) + DataText(l.lines)
  }

  function Filed(user: string, l: Letter): Record {
    Record(true, Some(user), Some(l.sender), l.recipients, Message(l.lines))
  }

  function AfterLetter(s: State, l: Letter): State {
    OnData(Addressed(Opened(s, l.sender), l.recipients), Message(l.lines))
  }

  lemma AfterLetterHas(s: State, user: string, l: Letter)
    requires s.tls && s.user == Some(user)
    ensures var t := AfterLetter(s, l);
            && t.tls && t.user == Some(user) && t.records == s.records + [Filed(user, l)]
            && t.replies == s.replies + LetterReplies(l)
  {
    AddressedHas(Opened(s, l.sender), l.recipients);
    assert [] + l.recipients == l.recipients;
    AddressedReplies(Opened(s, l.sender), l.recipients);
    Regroup(s.replies, [250], Oks(|l.recipients|));
    Regroup(s.replies, [250] + Oks(|l.recipients|), [354, 250]);
  }

  lemma LetterLeads(conf: Config, s: State, user: string, l: Letter)
    requires IsLetter(l) && s.tls && s.user == Some(user) && user != ""
    ensures Leads(conf, s, LetterText(l), AfterLetter(s, l))
  {
    var begun := Opened(s, l.sender);
    var addressed := Addressed(begun, l.recipients);
    var mail := CommandText("MAIL", PathText("FROM:", l.sender, l.parameters));
    MailLeads(conf, s, l.sender, l.parameters);
    RcptsLead(conf, begun, l.recipients);
    AddressedHas(begun, l.recipients);
    assert [] + l.recipients == l.recipients;
    DataLeads(conf, addressed, l.lines);
    LeadsOn(conf, s, mail, begun, RcptText(l.recipients), addressed);
    LeadsOn(conf, s, mail + RcptText(l.recipients), addressed, DataText(l.lines), AfterLetter(s, l));
  }

  function LettersText(ls: seq<Letter>): string {
    if ls == [] then "" else LetterText(ls[0]) + LettersText(ls[1..])
  }

  function AllFiled(user: string, ls: seq<Letter>): seq<Record> {
    if ls == [] then [] else [Filed(user, ls[0])] + AllFiled(user, ls[1..])
  }

  /** What the client is answered: to MAIL, to each RCPT, to DATA and to its end. */
  function LetterReplies(l: Letter): seq<int> {
    [250] + Oks(|l.recipients|) + [354, 250]
  }

  function AllReplies(ls: seq<Letter>): seq<int> {
    if ls == [] then [] else LetterReplies(ls[0]) + AllReplies(ls[1..])
  }

  function AfterLetters(s: State, ls: seq<Letter>): State
    decreases |ls|
  {
    if ls == [] then s else AfterLetters(AfterLetter(s, ls[0]), ls[1..])
  }

  lemma {:induction false} LettersFiled(s: State, user: string, ls: seq<Letter>)
    requires s.tls && s.user == Some(user)
    ensures AfterLetters(s, ls).records == s.records + AllFiled(user, ls)
    ensures AfterLetters(s, ls).replies == s.replies + AllReplies(ls)
    decreases |ls|
  {
    if ls == [] {
      assert s.records + [] == s.records && s.replies + [] == s.replies;
    } else {
      AfterLetterHas(s, user, ls[0]);
      LettersFiled(AfterLetter(s, ls[0]), user, ls[1..]);
      assert s.records + [Filed(user, ls[0])] + AllFiled(user, ls[1..]) == s.records + AllFiled(user, ls);
      Regroup(s.replies, LetterReplies(ls[0]), AllReplies(ls[1..]));
    }
  }

  lemma {:induction false} LettersLead(conf: Config, s: State, user: string, ls: seq<Letter>)
    requires s.tls && s.user == Some(user) && user != "" && forall k | 0 <= k < |ls| :: IsLetter(ls[k])
    ensures Leads(conf, s, LettersText(ls), AfterLetters(s, ls))
    decreases |ls|
  {
    if ls == [] {
      LeadsNowhere(conf, s);
    } else {
      LetterLeads(conf, s, user, ls[0]);
      AfterLetterHas(s, user, ls[0]);
      var t := AfterLetter(s, ls[0]);
      LettersLead(conf, t, user, ls[1..]);
      LeadsOn(conf, s, LetterText(ls[0]), t, LettersText(ls[1..]), AfterLetters(s, ls));
    }
  }

  /** What a client sends in the clear, and then over TLS. */
  function Opening(host: string): string {
    CommandText("EHLO", host) + ("STARTTLS" + "\r\n")
  }

  function Script(host: string, user: string, token: string, split: bool, ls: seq<Letter>): string
    requires Sendable(user) && Sendable(token)
  {
    CommandText("EHLO", host) + AuthText(user, token, split) + LettersText(ls) + ("QUIT" + "\r\n")
  }

  lemma LeadsThrough(conf: Config, s: State, a: string, t: State, b: string, u: State, c: string, v: State, d: string)
    requires Leads(conf, s, a, t) && Leads(conf, t, b, u) && Leads(conf, u, c, v)
    ensures Serve(conf, s, a + b + c + d, None) == Serve(conf, v, d, None)
  {
    LeadsOn(conf, s, a, t, b, u);
    LeadsOn(conf, s, a + b, u, c, v);
  }

  lemma ScriptDelivers(conf: Config, s: State, host: string, user: string, token: string, split: bool, ls: seq<Letter>)
    requires IsCommand(host) && Sendable(user) && Sendable(token) && s.tls
    requires !conf.rejectAuth && conf.allowed(token)
    requires forall k | 0 <= k < |ls| :: IsLetter(ls[k])
    ensures var t := Serve(conf, s, Script(host, user, token, split, ls), None);
            && t.records == s.records + AllFiled(user, ls)
            && t.replies == s.replies + [250] + (if split then [334, 235] else [235]) + AllReplies(ls) + [221]
  {
    var greeted := Reply(s, [250]);
    HelloIs();
    CommandLeads(conf, s, "EHLO", host, Hello, greeted);
    var loggedIn := LoggedIn(greeted, "XOAUTH2", user, token, if split then [334, 235] else [235]);
    AuthLeads(conf, greeted, user, token, split);
    LettersLead(conf, loggedIn, user, ls);
    LettersFiled(loggedIn, user, ls);
    var t := AfterLetters(loggedIn, ls);
    LeadsThrough(conf, s, CommandText("EHLO", host), greeted, AuthText(user, token, split), loggedIn, LettersText(ls),
                 t, "QUIT" + "\r\n");
    Quits(conf, t);
  }

  lemma Quits(conf: Config, s: State)
    ensures Serve(conf, s, "QUIT" + "\r\n", None) == Reply(s, [221])
  {
    QuitIs();
    OneWord(conf, s, "QUIT", Quit, "", None);
    assert "QUIT" + "\r\n" + "" == "QUIT" + "\r\n";
  }

  /** Greeting and STARTTLS, whatever follows over TLS. */
  lemma OpensTls(conf: Config, host: string, script: string) returns (t: State)
    requires IsCommand(host)
    ensures Serve(conf, CONNECTED, Opening(host), Some(script)) == Serve(conf, t, script, None)
    ensures t.tls && t.records == [] && t.replies == [220, 250, 220]
  {
    HelloIs();
    OneCommand(conf, CONNECTED, "EHLO", host, Hello, "STARTTLS" + "\r\n", Some(script));
    t := StartsTls(conf, Reply(CONNECTED, [250]), script);
  }

  lemma StartsTls(conf: Config, s: State, script: string) returns (t: State)
    requires !s.tls
    ensures Serve(conf, s, "STARTTLS" + "\r\n", Some(script)) == Serve(conf, t, script, None)
    ensures t.tls && t.records == s.records && t.replies == s.replies + [220]
  {
    StartTlsIs();
    OneWord(conf, s, "STARTTLS", StartTls, "", Some(script));
    assert "STARTTLS" + "\r\n" + "" == "STARTTLS" + "\r\n";
    t := Note(Reply(s, [220]), Secured).(tls := true);
  }

  /** A correct client's session delivers exactly its letters, and every step of it is
      answered as it should be: any number of letters, any content, any accepted
      credentials, sent either way. */
  lemma DeliversExactly(conf: Config, host: string, user: string, token: string, split: bool, ls: seq<Letter>)
    requires IsCommand(host) && Sendable(user) && Sendable(token)
    requires !conf.rejectAuth && conf.allowed(token)
    requires forall k | 0 <= k < |ls| :: IsLetter(ls[k])
    ensures var s := Serve(conf, CONNECTED, Opening(host), Some(Script(host, user, token, split, ls)));
            && s.records == AllFiled(user, ls)
            && s.replies == [220, 250, 220] + [250] + (if split then [334, 235] else [235]) + AllReplies(ls) + [221]
  {
    var t := OpensTls(conf, host, Script(host, user, token, split, ls));
    ScriptDelivers(conf, t, host, user, token, split, ls);
    assert [] + AllFiled(user, ls) == AllFiled(user, ls);
  }
}
