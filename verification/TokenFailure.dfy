/** Why a token request failed, read from the HTTP status and the error body. */
module TokenFailure {
  import opened Common

  datatype Fault = Transient | CertFault | Scope | Unknown

  /** ASCII lower case. */
  function Lower(s: string): (t: string)
    ensures |t| == |s|
  {
    seq(|s|, i requires 0 <= i < |s| => if 'A' <= s[i] <= 'Z' then s[i] + 32 as char else s[i])
  }

  predicate HasAt(text: string, phrase: string, i: nat)
    requires i <= |text| - |phrase|
  {
    text[i..i + |phrase|] == phrase
  }

  predicate Mentions(text: string, phrase: string) {
    exists i | 0 <= i <= |text| - |phrase| :: HasAt(text, phrase, i)
  }

  predicate BlamesCertificate(text: string) {
    || Mentions(text, "aadsts700027")
    || (Mentions(text, "certificate")
        && (|| Mentions(text, "not valid") || Mentions(text, "not found")
            || Mentions(text, "expired") || Mentions(text, "revoked")
            || Mentions(text, "no longer")))
  }

  predicate BlamesAuthorization(text: string) {
    || Mentions(text, "resource principal") || Mentions(text, "sendasapp")
    || Mentions(text, "aadsts501051") || Mentions(text, "aadsts500011")
  }

  function Classify(status: Option<int>, body: string): Fault {
    var text := Lower(body);
    if status.None? || status.value >= 500 then Transient
    else if BlamesCertificate(text) then CertFault
    else if BlamesAuthorization(text) then Scope
    else Unknown
  }

  /** An outage is never a certificate fault, whatever its body says; an answer below
      500 is one exactly when its text blames the certificate, in any letter case. */
  lemma OnlyAnsweredBlame(status: Option<int>, body: string)
    ensures Classify(status, body) == CertFault <==>
            status.Some? && status.value < 500 && BlamesCertificate(Lower(body))
    ensures Classify(status, Lower(body)) == Classify(status, body)
  {
    assert Lower(Lower(body)) == Lower(body);
  }

  /** The text, in any letter case. */
  predicate Says(body: string, phrase: string) {
    Mentions(Lower(body), phrase)
  }

  /** Each capital letter reads as its small one, and every other character as itself. */
  lemma LowerRows(s: string, i: nat, k: nat)
    requires i < |s| && k < 26
    ensures s[i] == UPPER_CASE[k] ==> Lower(s)[i] == LOWER_CASE[k]
    ensures s[i] !in UPPER_CASE ==> Lower(s)[i] == s[i]
  {
    Rows();
    InRow(UPPER_CASE, 'A', s[i]);
  }

  /** The whole table, with its phrases. */
  lemma FaultTable(status: Option<int>, body: string)
    ensures Classify(status, body) ==
            if status.None? || status.value >= 500 then Transient
            else if Says(body, "aadsts700027")
                    || (Says(body, "certificate")
                        && (|| Says(body, "not valid") || Says(body, "not found") || Says(body, "expired")
                            || Says(body, "revoked") || Says(body, "no longer"))) then CertFault
            else if Says(body, "resource principal") || Says(body, "sendasapp") || Says(body, "aadsts501051")
                    || Says(body, "aadsts500011") then Scope
            else Unknown
  {
  }

  lemma MentionsWithin(before: string, text: string, after: string, phrase: string)
    ensures Mentions(text, phrase) ==> Mentions(before + text + after, phrase)
  {
    if Mentions(text, phrase) {
      var i :| 0 <= i <= |text| - |phrase| && HasAt(text, phrase, i);
      var whole := before + text + after;
      assert whole[|before| + i..|before| + i + |phrase|] == text[i..i + |phrase|];
      assert HasAt(whole, phrase, |before| + i);
    }
  }

  /** The blame counts wherever it stands: no text around it, not even one that
      blames authorization, turns a certificate fault into anything else. */
  lemma BlameStandsAnywhere(status: Option<int>, before: string, body: string, after: string)
    requires Classify(status, body) == CertFault
    ensures Classify(status, before + body + after) == CertFault
  {
    var a, text, b := Lower(before), Lower(body), Lower(after);
    assert Lower(before + body + after) == a + text + b;
    MentionsWithin(a, text, b, "aadsts700027");
    MentionsWithin(a, text, b, "certificate");
    MentionsWithin(a, text, b, "not valid");
    MentionsWithin(a, text, b, "not found");
    MentionsWithin(a, text, b, "expired");
    MentionsWithin(a, text, b, "revoked");
    MentionsWithin(a, text, b, "no longer");
  }
}
