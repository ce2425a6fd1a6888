/** The XOAUTH2 response: built by prove_by_sending, taken apart by Sink.authenticate.
    A text is a string of bytes, one character each. */
module XOAuth2 {
  import opened Common
  import opened Base64

  const SEP := '\U{01}'

  predicate IsBytes(s: string) {
    forall i | 0 <= i < |s| :: s[i] < 256 as char
  }

  function Bytes(s: string): (r: seq<Byte>)
    requires IsBytes(s)
    ensures |r| == |s| && forall i | 0 <= i < |s| :: r[i] == s[i] as int
  {
    seq(|s|, i requires 0 <= i < |s| => s[i] as int)
  }

  function Text(bytes: seq<Byte>): (s: string)
    ensures |s| == |bytes| && IsBytes(s) && forall i | 0 <= i < |s| :: s[i] as int == bytes[i]
  {
    seq(|bytes|, i requires 0 <= i < |bytes| => bytes[i] as char)
  }

  /** A user or token that can be sent: not empty, and free of the separator. */
  predicate Sendable(s: string) {
    s != "" && SEP !in s && IsBytes(s)
  }

  function Response(user: string, token: string): string {
    "user=" + user + [SEP] + "auth=Bearer " + token + [SEP] + [SEP]
  }

  function Encoded(user: string, token: string): string
    requires Sendable(user) && Sendable(token)
  {
    Encode(Bytes(Response(user, token)))
  }

  // -------------------------------------------------------------------- decoding

  /** str.split(sep) */
  function SplitOn(s: string, sep: char): seq<string> {
    if sep !in s then [s]
    else
      var i := IndexOf(s, sep);
      [s[..i]] + SplitOn(s[i + 1..], sep)
  }

  function IndexOf(s: string, c: char): (i: nat)
    requires c in s
    ensures i < |s| && s[i] == c && forall k | 0 <= k < i :: s[k] != c
  {
    if s[0] == c then 0 else IndexOf(s[1..], c) + 1
  }

  /** dict(field.split("=", 1) for field in fields if "=" in field): a later field wins. */
  function Fields(fields: seq<string>): map<string, string> {
    if fields == [] then map[]
    else
      var n := |fields| - 1;
      var last := fields[n];
      if '=' in last then Fields(fields[..n])[last[..IndexOf(last, '=')] := last[IndexOf(last, '=') + 1..]]
      else Fields(fields[..n])
  }

  const BEARER := "Bearer "

  datatype Credentials = Credentials(user: string, token: string)

  function FromFields(fields: map<string, string>): Option<Credentials> {
    if "user" in fields && fields["user"] != "" && "auth" in fields
       && BEARER < fields["auth"]
    then Some(Credentials(fields["user"], fields["auth"][|BEARER|..]))
    else None
  }

  /** The user and token in a response, None when it is malformed. */
  function Parse(encoded: string): Option<Credentials> {
    var decoded := match Decode(encoded) case None => "" case Some(bytes) => Text(bytes);
    FromFields(Fields(SplitOn(decoded, SEP)))
  }

  // -------------------------------------------------------------------- theorems

  /** What goes over the wire: both fields, each closed by the byte 1, and one more. */
  lemma ResponseSays(user: string, token: string)
    ensures Response(user, token) == "user=" + user + "\U{01}auth=Bearer " + token + "\U{01}\U{01}"
  {
    assert [SEP] + "auth=Bearer " == "\U{01}auth=Bearer " && [SEP] + [SEP] == "\U{01}\U{01}";
  }

  lemma FirstIs(a: string, rest: string, c: char)
    requires c !in a
    ensures c in a + [c] + rest && IndexOf(a + [c] + rest, c) == |a|
  {
    var s := a + [c] + rest;
    assert s[|a|] == c;
    assert forall k | 0 <= k < |a| :: s[k] == a[k] && a[k] in a;
  }

  lemma SplitFirst(a: string, rest: string, sep: char)
    requires sep !in a
    ensures SplitOn(a + [sep] + rest, sep) == [a] + SplitOn(rest, sep)
  {
    FirstIs(a, rest, sep);
    var s := a + [sep] + rest;
    assert s[..|a|] == a && s[|a| + 1..] == rest;
  }

  lemma OneMoreField(fields: seq<string>, name: string, value: string)
    requires '=' !in name
    ensures Fields(fields + [name + ['='] + value]) == Fields(fields)[name := value]
  {
    var last := name + ['='] + value;
    var longer := fields + [last];
    FirstIs(name, value, '=');
    assert longer[..|longer| - 1] == fields && longer[|longer| - 1] == last;
    assert last[..|name|] == name && last[|name| + 1..] == value;
  }

  lemma EmptyField(fields: seq<string>)
    ensures Fields(fields + [""]) == Fields(fields)
  {
    var longer := fields + [""];
    assert longer[..|longer| - 1] == fields;
  }

  lemma TwoFields(first: string, a: string, v: string, second: string, b: string, w: string)
    requires '=' !in a && '=' !in b
    requires first == a + ['='] + v && second == b + ['='] + w
    ensures Fields([first, second, "", ""]) == map[a := v][b := w]
  {
    OneMoreField([], a, v);
    OneMoreField([first], b, w);
    EmptyField([first, second]);
    EmptyField([first, second, ""]);
    assert [] + [first] == [first] && [first] + [second] == [first, second];
    assert [first, second] + [""] == [first, second, ""];
    assert [first, second, ""] + [""] == [first, second, "", ""];
  }

  lemma FieldsOfResponse(user: string, token: string)
    ensures Fields(["user=" + user, "auth=Bearer " + token, "", ""]) == map["user" := user]["auth" := BEARER + token]
  {
    assert "user=" + user == "user" + ['='] + user;
    assert "auth=Bearer " + token == "auth" + ['='] + (BEARER + token);
    TwoFields("user=" + user, "user", user, "auth=Bearer " + token, "auth", BEARER + token);
  }

  /** The fields of a response name its user and token. */
  lemma ReadsFields(user: string, token: string)
    requires user != "" && token != ""
    ensures FromFields(map["user" := user]["auth" := BEARER + token]) == Some(Credentials(user, token))
  {
    var fields := map["user" := user]["auth" := BEARER + token];
    assert "user"[0] != "auth"[0];
    assert fields["user"] == user && fields["auth"] == BEARER + token;
    assert (BEARER + token)[|BEARER|..] == token;
  }

  lemma SplitTwo(first: string, second: string, sep: char)
    requires sep !in first && sep !in second
    ensures SplitOn(first + [sep] + (second + [sep] + ("" + [sep] + "")), sep) == [first, second, "", ""]
  {
    SplitFirst(first, second + [sep] + ("" + [sep] + ""), sep);
    SplitFirst(second, "" + [sep] + "", sep);
    SplitFirst("", "", sep);
  }

  lemma SplitResponse(user: string, token: string)
    requires SEP !in user && SEP !in token
    ensures SplitOn(Response(user, token), SEP) == ["user=" + user, "auth=Bearer " + token, "", ""]
  {
    var first, second := "user=" + user, "auth=Bearer " + token;
    assert Response(user, token) == first + [SEP] + (second + [SEP] + ("" + [SEP] + ""));
    SplitTwo(first, second, SEP);
  }

  /** Every sendable user and token is read back exactly. */
  lemma RoundTrips(user: string, token: string)
    requires Sendable(user) && Sendable(token)
    ensures Parse(Encoded(user, token)) == Some(Credentials(user, token))
  {
    var response := Response(user, token);
    RoundTrip(Bytes(response));
    assert Text(Bytes(response)) == response;
    SplitResponse(user, token);
    FieldsOfResponse(user, token);
    ReadsFields(user, token);
  }

  lemma {:induction false} PartsAreClean(s: string, sep: char)
    requires IsBytes(s)
    ensures forall i | 0 <= i < |SplitOn(s, sep)| :: sep !in SplitOn(s, sep)[i] && IsBytes(SplitOn(s, sep)[i])
    decreases |s|
  {
    if sep in s {
      PartsAreClean(s[IndexOf(s, sep) + 1..], sep);
    }
  }

  lemma {:induction false} FieldsAreClean(fields: seq<string>, sep: char)
    requires forall i | 0 <= i < |fields| :: sep !in fields[i] && IsBytes(fields[i])
    ensures forall k | k in Fields(fields) :: sep !in Fields(fields)[k] && IsBytes(Fields(fields)[k])
    decreases |fields|
  {
    if fields != [] {
      FieldsAreClean(fields[..|fields| - 1], sep);
    }
  }

  /** What is read from any response at all could have been sent, and printing it
      again is read the same: encoder and decoder agree on exactly these pairs. */
  lemma WhatIsReadCanBeSent(encoded: string)
    requires Parse(encoded).Some?
    ensures var c := Parse(encoded).value;
            && Sendable(c.user) && Sendable(c.token)
            && Parse(Encoded(c.user, c.token)) == Parse(encoded)
  {
    var decoded := match Decode(encoded) case None => "" case Some(bytes) => Text(bytes);
    var parts := SplitOn(decoded, SEP);
    PartsAreClean(decoded, SEP);
    FieldsAreClean(parts, SEP);
    var c := Parse(encoded).value;
    RoundTrips(c.user, c.token);
  }
}
