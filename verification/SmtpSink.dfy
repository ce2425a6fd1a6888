/** The sink as it runs: a read loop over the connection, proved against Serve. */
module SmtpSink {
  import opened Common
  import opened Thumbprint
  import opened SmtpSession

  /** The session from `s` on is the rest of the session from `start` on. */
  ghost predicate LeadsTo(conf: Config, start: State, input: string, secure: Option<string>,
                          s: State, stream: string, handshake: Option<string>, goes: bool)
  {
    Serve(conf, start, input, secure) == if goes then Serve(conf, s, stream, handshake) else s
  }

  /** A line read and its command done is one step of the session function. */
  lemma OneMore(conf: Config, start: State, input: string, secure: Option<string>,
                s: State, stream: string, handshake: Option<string>, word: string, argument: string,
                after: State, rest: string, left: Option<string>, goes: bool)
    requires LeadsTo(conf, start, input, secure, s, stream, handshake, true)
    requires stream != "" && (word, argument) == Partition(Chomp(Line(stream)))
    requires Turn(after, rest, left, goes) == TakeTurn(conf, s, VerbOf(word), argument, Rest(stream), handshake)
    ensures LeadsTo(conf, start, input, secure, after, rest, left, goes)
    ensures goes ==> Unread(rest, left) < Unread(stream, handshake)
  {
    TurnShrinks(conf, s, VerbOf(word), argument, Rest(stream), handshake);
  }

  lemma Arrived(conf: Config, start: State, input: string, secure: Option<string>,
                s: State, stream: string, handshake: Option<string>, goes: bool)
    requires LeadsTo(conf, start, input, secure, s, stream, handshake, goes)
    requires !goes || stream == ""
    ensures s == Serve(conf, start, input, secure)
  {
  }

  lemma Regroup(a: seq<Record>, b: seq<Record>, c: seq<Record>)
    ensures a + b + c == a + (b + c)
  {
  }

  class Sink {
    const conf: Config
    var output: seq<Record>

    constructor (conf: Config)
      ensures this.conf == conf && output == []
    {
      this.conf, output := conf, [];
    }

    /** The DATA loop. */
    static method ReadMessage(input: string) returns (content: string, stream: string)
      ensures (content, stream) == ReadData(input)
    {
      content, stream := "", input;
      assert "" + ReadData(input).0 == ReadData(input).0;
      while stream != ""
        invariant ReadData(input) == (content + ReadData(stream).0, ReadData(stream).1)
        decreases |stream|
      {
        var line := Line(stream);
        ghost var more := ReadData(Rest(stream)).0;
        if IsEnd(line) {
          stream := Rest(stream);
          assert content + "" == content;
          return;
        }
        stream := Rest(stream);
        assert content + (Unstuffed(line) + more) == content + Unstuffed(line) + more;
        content := content + Unstuffed(line);
      }
      assert content + "" == content;
    }

    /** authenticate: the new user, what is left to read, and the replies sent. */
    method Authenticate(argument: string, input: string)
      returns (user: Option<string>, stream: string, replies: seq<int>)
      ensures (user, stream, replies) == AuthOutcome(conf, argument, input)
    {
      user, stream, replies := None, input, [];
      var (mechanism, encoded) := Partition(argument);
      if encoded == "" {
        replies := [334];
        encoded := Strip(Line(stream));
        stream := Rest(stream);
      }
      var verdict := Judge(conf, mechanism, encoded);
      if verdict.Accepted? {
        replies := replies + [235];
        user := Some(verdict.user);
        return;
      }
      if verdict.Rejected? {
        assert replies + [334] + [535] == replies + [334, 535];
        replies := replies + [334];
        stream := Rest(stream);
      }
      replies := replies + [535];
    }

    /** One command of handle, on what the session holds: its transport state, its
        envelope, and what is left to read. */
    method Obey(verb: Verb, argument: string, held: Held, input: string, secure: Option<string>, ghost s: State)
      returns (now: Held, codes: seq<int>, sent: seq<Record>, stream: string, left: Option<string>, goes: bool,
               ghost after: State)
      requires held == Held(s.tls, s.user, s.sender, s.recipients)
      ensures Turn(after, stream, left, goes) == TakeTurn(conf, s, verb, argument, input, secure)
      ensures now == Held(after.tls, after.user, after.sender, after.recipients)
      ensures after.records == s.records + sent && after.replies == s.replies + codes
    {
      now, codes, sent, stream, left, goes := held, [], [], input, secure, true;
      ghost var events: seq<Event> := [];
      assert s.records + [] == s.records && s.replies + [] == s.replies && s.past + [] == s.past;
      if verb == Hello {
        codes := [250];
      } else if verb == StartTls && !held.tls {
        codes := [220];
        match secure
        case None =>
          stream, goes := "", false;
        case Some(wrapped) =>
          stream, left, now := wrapped, None, held.(tls := true);
          events := [Secured];
      } else if verb == Auth && held.tls {
        var user;
        user, stream, codes := Authenticate(argument, input);
        now := held.(user := user);
        events := [Login(user, Partition(argument).0, Presented(argument, input))];
      } else if verb == MailFrom && held.user.Some? && held.user.value != "" {
        var path := PathArgument(argument, "FROM:");
        if path.None? {
          goes := false;
        } else {
          now := held.(sender := path, recipients := []);
          codes := [250];
          events := [Mail(path.value)];
        }
      } else if verb == RcptTo && held.sender.Some? {
        var path := PathArgument(argument, "TO:");
        if path.None? {
          goes := false;
        } else {
          now := held.(recipients := held.recipients + [path.value]);
          codes := [250];
          events := [Rcpt(path.value)];
        }
      } else if verb == Data && held.recipients != [] {
        var content;
        content, stream := ReadMessage(input);
        sent := [Record(held.tls, held.user, held.sender, held.recipients, content)];
        now := held.(sender := None, recipients := []);
        codes := [354, 250];
        events := [Sent(content)];
      } else if verb == Rset {
        now := held.(sender := None, recipients := []);
        codes := [250];
        events := [Cleared];
      } else if verb == Noop {
        codes := [250];
      } else if verb == Quit {
        codes, goes := [221], false;
      } else {
        codes := [503];
      }
      after := State(now.tls, now.user, now.sender, now.recipients, s.records + sent, s.replies + codes,
                     s.past + events);
    }

    /** handle: one connection, until it ends, QUIT, or a command that raises. */
    method Handle(input: string, secure: Option<string>) returns (replies: seq<int>)
      modifies this`output
      ensures output == old(output) + Serve(conf, CONNECTED, input, secure).records
      ensures replies == Serve(conf, CONNECTED, input, secure).replies
    {
      var stream, handshake := input, secure;
      var held := Held(false, None, None, []);
      replies := [220];
      var goes := true;
      ghost var s := CONNECTED;
      assert output == old(output) + [];
      while goes && stream != ""
        invariant output == old(output) + s.records
        invariant s.replies == replies && held == Held(s.tls, s.user, s.sender, s.recipients)
        invariant LeadsTo(conf, CONNECTED, input, secure, s, stream, handshake, goes)
        decreases goes, Unread(stream, handshake)
      {
        var (word, argument) := Partition(Chomp(Line(stream)));
        ghost var before, unread, unwrapped := s, stream, handshake;
        var codes, sent;
        held, codes, sent, stream, handshake, goes, s := Obey(VerbOf(word), argument, held, Rest(stream), handshake, s);
        Regroup(old(output), before.records, sent);
        output := output + sent;
        replies := replies + codes;
        OneMore(conf, CONNECTED, input, secure, before, unread, unwrapped, word, argument, s, stream, handshake, goes);
      }
      Arrived(conf, CONNECTED, input, secure, s, stream, handshake, goes);
    }
  }

  /** What handle keeps of a session. */
  datatype Held = Held(tls: bool, user: Option<string>, sender: Option<string>, recipients: seq<string>)
}
